// One streamed answer: the frames that are sent, the tools that are run, the messages and
// the cache entry that are stored. What the model, the tools, the cache and the searches
// reply is given from outside.
module AnswerStream {
  import opened Options
  import Gateway
  import Cache = SemanticCache

  // ---- what the outside replies ----

  // One call to the model, read to its end; it may break off with a gateway error.
  datatype Reply = Reply(chunks: seq<Gateway.Chunk>, breaks: bool)

  datatype Outcome =
    | Confirmed | NeedsInfo | Listed | Withdrawn | Moved
    | Forbidden | Failed | NotFound | Terminal | Conflict

  datatype Lookup = LookupError | Miss | Found(answer: string, citations: seq<Cache.Citation>)

  datatype Candidate = Candidate(source: Cache.Citation, text: string)

  datatype Inputs = Inputs(
    question: string,
    principal: bool, conversation: bool, repository: bool,   // which of the three are there
    greeting: bool, privacy: bool, malicious: bool,          // what the guards say of the question
    turns: nat -> Reply,                                     // the model's choice at each step
    queryIn: string -> string,                               // the query in a tool call's arguments, or ""
    outcomes: nat -> Outcome,                                // what the tool run at each step returns
    cached: bool, lookup: Lookup,                            // whether there is a cache, and what it finds
    embedding: Cache.Vector, model: string,
    knowledge: string -> seq<Candidate>, pages: string -> seq<Candidate>,
    strip: string -> string,
    reply: Reply)                                            // the answer to the last prompt

  const MAX_STEPS := 4

  const SEARCH := "search_knowledge"
  const BOOK := "request_interview_booking"
  const LIST := "list_my_appointments"
  const CANCEL := "cancel_appointment"
  const RESCHEDULE := "reschedule_appointment"
  const TOOLS := {SEARCH, BOOK, LIST, CANCEL, RESCHEDULE}

  const GREETING_REPLY := "greeting"
  const PRIVACY_REPLY := "privacy"
  const MALICIOUS_REPLY := "malicious"
  const OFFTOPIC_REPLY := "offtopic"

  // ---- what is sent and stored ----

  datatype Phase = Policy | Routing | Retrieval | Tool | Generation | Result
  datatype Status = Begun | Completed | Blocked | Broken

  datatype Note =
    | Started(conversation: bool)
    | Trace(phase: Phase, status: Status, tool: Option<string>)
    | Delta(text: string)
    | ToolCalls(query: string, hits: seq<Cache.Citation>)
    | Citations(hits: seq<Cache.Citation>)
    | Booking(outcome: Outcome)
    | Answered(grounded: bool, offtopic: bool, usage: Option<nat>)
    | Problem

  // `step` counts the trace frames; it is 0 on the others.
  datatype Frame = Frame(seqNo: nat, step: nat, note: Note)

  datatype ToolRun = ToolRun(name: string, outcome: Outcome)

  datatype Message =
    | User(text: string)
    | Assistant(text: string, offtopic: bool, grounded: bool, citations: nat)

  datatype Session = Session(notes: seq<Note>, messages: seq<Message>, ran: seq<ToolRun>, put: Option<Cache.Entry>)

  predicate Persists(x: Inputs) {
    x.principal && x.conversation && x.repository
  }

  // ---- searching ----

  function Sources(cs: seq<Candidate>): (r: seq<Cache.Citation>)
    ensures |r| == |cs| && forall i :: 0 <= i < |cs| ==> r[i] == cs[i].source
  {
    seq(|cs|, i requires 0 <= i < |cs| => cs[i].source)
  }

  // The knowledge base, or the static pages when it has nothing.
  function Retrieved(x: Inputs, query: string): seq<Candidate> {
    if x.knowledge(query) == [] then x.pages(query) else x.knowledge(query)
  }

  // Each source once, where it first stands.
  function Deduped(cs: seq<Candidate>): seq<Candidate> {
    if cs == [] then [] else
      var n := |cs| - 1;
      Deduped(cs[..n]) + if cs[n].source in Sources(cs[..n]) then [] else [cs[n]]
  }

  function Merged(x: Inputs, primary: string): seq<Candidate> {
    Deduped(Retrieved(x, primary) + Retrieved(x, x.question))
  }

  ghost predicate Collected(merged: seq<Candidate>, seen: set<Cache.Citation>, all: seq<Candidate>) {
    merged == Deduped(all) && forall c :: c in seen <==> c in Sources(all)
  }

  lemma OneMore(merged: seq<Candidate>, seen: set<Cache.Citation>, all: seq<Candidate>, c: Candidate)
    requires Collected(merged, seen, all)
    ensures if c.source in seen then Collected(merged, seen, all + [c])
            else Collected(merged + [c], seen + {c.source}, all + [c])
  {
    assert (all + [c])[..|all|] == all;
    assert Sources(all + [c]) == Sources(all) + [c.source];
  }

  method SearchCandidates(x: Inputs, primary: string) returns (merged: seq<Candidate>)
    ensures merged == Merged(x, primary)
  {
    merged := [];
    var seen: set<Cache.Citation> := {};
    var queries := [primary, x.question];
    ghost var all: seq<Candidate> := [];
    var q := 0;
    while q < |queries|
      invariant 0 <= q <= 2 && Collected(merged, seen, all)
      invariant q == 0 ==> all == []
      invariant q == 1 ==> all == Retrieved(x, primary)
      invariant q == 2 ==> all == Retrieved(x, primary) + Retrieved(x, x.question)
    {
      var found := x.knowledge(queries[q]);
      if found == [] {
        found := x.pages(queries[q]);
      }
      merged, seen := Collect(found, merged, seen, all);
      all := all + found;
      q := q + 1;
    }
  }

  lemma OneFurther(all: seq<Candidate>, found: seq<Candidate>, i: nat)
    requires i < |found|
    ensures all + found[..i + 1] == (all + found[..i]) + [found[i]]
  {
    assert found[..i + 1] == found[..i] + [found[i]];
  }

  method Collect(
    found: seq<Candidate>, before: seq<Candidate>, seenBefore: set<Cache.Citation>, ghost all: seq<Candidate>)
    returns (merged: seq<Candidate>, seen: set<Cache.Citation>)
    requires Collected(before, seenBefore, all)
    ensures Collected(merged, seen, all + found)
  {
    merged, seen := before, seenBefore;
    assert all + found[..0] == all;
    for i := 0 to |found|
      invariant Collected(merged, seen, all + found[..i])
    {
      var candidate := found[i];
      OneMore(merged, seen, all + found[..i], candidate);
      OneFurther(all, found, i);
      if candidate.source !in seen {
        seen := seen + {candidate.source};
        merged := merged + [candidate];
      }
    }
    assert found[..|found|] == found;
  }

  // ---- the script of an answer ----

  function UsageOf(chunks: seq<Gateway.Chunk>): nat {
    if chunks == [] then 0 else
      UsageOf(chunks[..|chunks| - 1]) + match chunks[|chunks| - 1] case Usage(n) => n case _ => 0
  }

  function DeltasOf(chunks: seq<Gateway.Chunk>): seq<Note> {
    if chunks == [] then [] else
      DeltasOf(chunks[..|chunks| - 1]) + match chunks[|chunks| - 1] case Delta(text) => [Note.Delta(text)] case _ => []
  }

  // The text of the deltas, joined.
  function Said(notes: seq<Note>): string {
    if notes == [] then "" else
      Said(notes[..|notes| - 1]) + if notes[|notes| - 1].Delta? then notes[|notes| - 1].text else ""
  }

  function FirstCall(chunks: seq<Gateway.Chunk>): (call: Option<Gateway.Chunk>)
    ensures call.Some? ==> call.value in chunks && call.value.ToolCall?
  {
    if chunks == [] then None else
      match FirstCall(chunks[..|chunks| - 1])
      case Some(call) => Some(call)
      case None => if chunks[|chunks| - 1].ToolCall? then Some(chunks[|chunks| - 1]) else None
  }

  function Asked(x: Inputs): seq<Message> {
    if Persists(x) then [User(x.question)] else []
  }

  function Stored(x: Inputs, text: string, offtopic: bool, grounded: bool, citations: nat): seq<Message> {
    if Persists(x) then [User(x.question), Assistant(text, offtopic, grounded, citations)] else []
  }

  function Opening(x: Inputs): seq<Note> {
    [Started(Persists(x)), Trace(Policy, Completed, None)]
  }

  function Usage(total: nat): Option<nat> {
    if total > 0 then Some(total) else None
  }

  // A fixed reply, without the model, the tools or a search.
  function Canned(x: Inputs, status: Status, text: string, offtopic: bool): Session {
    Session(Opening(x) + [Trace(Routing, status, None), Trace(Result, status, None),
                          Delta(text), Citations([]), Answered(false, offtopic, None)],
            Stored(x, text, offtopic, false, 0), [], None)
  }

  function StatusOf(o: Outcome): Status {
    match o
    case Forbidden => Blocked
    case Failed => Broken
    case NotFound => Broken
    case Terminal => Broken
    case Conflict => Broken
    case _ => Completed
  }

  // Every tool but the search needs an account.
  function Run(x: Inputs, step: nat): Outcome {
    if x.principal then x.outcomes(step) else Forbidden
  }

  function SearchQuery(x: Inputs, arguments: string): string {
    var query := x.queryIn(arguments);
    var stripped := x.strip(if query != "" then query else x.question);
    if stripped != "" then stripped else x.question
  }

  // What the model chose at one turn, and what the turn cost.
  datatype Choice = Breaks | Direct | Searches(query: string) | Unoffered | Runs(name: string, outcome: Outcome)
  datatype Turn = Turn(choice: Choice, usage: nat)
  type Turns = nat -> Turn

  function TurnAt(x: Inputs, step: nat): Turn {
    var reply := x.turns(step);
    var call := FirstCall(reply.chunks);
    var choice :=
      if reply.breaks then Breaks
      else if call == None then Direct
      else if call.value.name == SEARCH then Searches(SearchQuery(x, call.value.arguments))
      else if call.value.name !in TOOLS then Unoffered
      else Runs(call.value.name, Run(x, step));
    Turn(choice, UsageOf(reply.chunks))
  }

  ghost predicate AreTurns(turns: Turns, x: Inputs) {
    forall step: nat {:trigger TurnAt(x, step)} :: turns(step) == TurnAt(x, step)
  }

  function TurnsOf(x: Inputs): (turns: Turns)
    ensures AreTurns(turns, x)
  {
    (step: nat) => TurnAt(x, step)
  }

  datatype Route = Route(notes: seq<Note>, ran: seq<ToolRun>, search: Option<string>, usage: nat, broken: bool)

  // The tool loop from a step on; `ran` and `usage` are what these steps add.
  function RouteFrom(turns: Turns, question: string, step: nat): Route
    requires step <= MAX_STEPS
    decreases MAX_STEPS - step
  {
    if step == MAX_STEPS then Route([], [], None, 0, false)
    else if turns(step).choice.Runs? then AfterTool(turns(step), RouteFrom(turns, question, step + 1))
    else EndOf(turns(step), question, step == 0)
  }

  // A turn that runs a tool comes before the rest of the route.
  function AfterTool(turn: Turn, rest: Route): Route
    requires turn.choice.Runs?
  {
    Route([ToolTrace(turn.choice.name, turn.choice.outcome)] + rest.notes,
          [ToolRun(turn.choice.name, turn.choice.outcome)] + rest.ran, rest.search, turn.usage + rest.usage,
            rest.broken)
  }

  function ToolTrace(name: string, outcome: Outcome): Note {
    Trace(Tool, StatusOf(outcome), Some(name))
  }

  // A turn that runs no tool ends the loop; only on the very first turn does a direct
  // answer leave no tool behind.
  function EndOf(turn: Turn, question: string, first: bool): Route
    requires !turn.choice.Runs?
  {
    match turn.choice
    case Breaks => Route([Trace(Routing, Broken, None), Problem], [], None, turn.usage, true)
    case Direct => Route(if first then [Trace(Routing, Completed, None)] else [], [], None, turn.usage, false)
    case Searches(query) => Route([Trace(Routing, Completed, Some(SEARCH))], [], Some(query), turn.usage, false)
    case Unoffered => Route([Trace(Tool, Blocked, None)], [], Some(question), turn.usage, false)
  }

  // A cached answer serves only callers without an account and without a conversation.
  function Eligible(x: Inputs, ran: seq<ToolRun>): bool {
    x.cached && !x.principal && !x.conversation && ran == []
  }

  function FromCache(x: Inputs, route: Route, answer: string, citations: seq<Cache.Citation>): Session {
    Session([Trace(Retrieval, Completed, None), Delta(answer), Citations(citations),
             Trace(Result, Completed, None), Answered(true, false, None)],
            Asked(x), route.ran, None)
  }

  function Refusal(x: Inputs, route: Route, query: string): Session {
    Session([Trace(Retrieval, Blocked, Some(SEARCH)), Trace(Result, Blocked, None), ToolCalls(query, []),
             Delta(OFFTOPIC_REPLY), Citations([]), Answered(false, true, None)],
            Stored(x, OFFTOPIC_REPLY, true, false, 0), route.ran, None)
  }

  const BROKEN := [Trace(Generation, Broken, None), Problem]

  function CitedTail(hits: seq<Cache.Citation>, usage: Option<nat>): seq<Note> {
    [Trace(Generation, Completed, None), Citations(hits), Trace(Result, Completed, None), Answered(true, false, usage)]
  }

  function ToldTail(usage: Option<nat>): seq<Note> {
    [Trace(Generation, Completed, None), Trace(Result, Completed, None), Answered(false, false, usage)]
  }

  function Evidence(query: string, hits: seq<Cache.Citation>): seq<Note> {
    [Trace(Retrieval, Completed, Some(SEARCH)), ToolCalls(query, hits), Trace(Generation, Begun, None)]
  }

  function Cited(x: Inputs, route: Route, hits: seq<Cache.Citation>): seq<Note> {
    DeltasOf(x.reply.chunks) +
    if x.reply.breaks then BROKEN else CitedTail(hits, Usage(route.usage + UsageOf(x.reply.chunks)))
  }

  function Grounded(x: Inputs, route: Route, query: string, hits: seq<Cache.Citation>): Session {
    var text := Said(DeltasOf(x.reply.chunks));
    Session(Evidence(query, hits) + Cited(x, route, hits),
            if x.reply.breaks then Asked(x) else Stored(x, text, false, true, |hits|),
            route.ran,
            if !x.reply.breaks && Eligible(x, route.ran) && x.lookup.Miss?
            then Some(Cache.Entry(x.embedding, text, hits, x.model)) else None)
  }

  function QueryOf(x: Inputs, route: Route): string {
    if route.search.Some? && route.search.value != "" then route.search.value else x.question
  }

  // An answer from the knowledge base, or the refusal when it has nothing.
  function FromKnowledge(x: Inputs, route: Route): Session {
    if Eligible(x, route.ran) && x.lookup.Found? then
      FromCache(x, route, x.lookup.answer, x.lookup.citations)
    else
      var query := QueryOf(x, route);
      var hits := Sources(Merged(x, query));
      if hits == [] then Refusal(x, route, query) else Grounded(x, route, query, hits)
  }

  function Cards(ran: seq<ToolRun>): seq<Note> {
    if ran == [] then [] else
      var last := ran[|ran| - 1];
      Cards(ran[..|ran| - 1]) + if last.name in {BOOK, CANCEL, RESCHEDULE} then [Booking(last.outcome)] else []
  }

  function Intro(ran: seq<ToolRun>): seq<Note> {
    [Trace(Routing, Completed, None)] + Cards(ran) + [Trace(Generation, Begun, None)]
  }

  function Explained(x: Inputs, route: Route): seq<Note> {
    DeltasOf(x.reply.chunks) +
    if x.reply.breaks then BROKEN else ToldTail(Usage(route.usage + UsageOf(x.reply.chunks)))
  }

  // The model puts the results of the tools into words.
  function FromTools(x: Inputs, route: Route): Session {
    Session(Intro(route.ran) + Explained(x, route),
            if x.reply.breaks then Asked(x) else Stored(x, Said(DeltasOf(x.reply.chunks)), false, false, 0),
            route.ran, None)
  }

  function Branch(x: Inputs, route: Route): Session {
    if route.broken then Session([], Asked(x), route.ran, None)
    else if route.search.Some? || route.ran == [] then FromKnowledge(x, route)
    else FromTools(x, route)
  }

  // A session that opens with the routing.
  function Ordinary(route: Route, branch: Session): Session {
    branch.(notes := [Trace(Routing, Begun, None)] + route.notes + branch.notes)
  }

  function Script(x: Inputs): Session {
    if x.greeting then Canned(x, Completed, GREETING_REPLY, false)
    else if x.privacy then Canned(x, Blocked, PRIVACY_REPLY, true)
    else if x.malicious then Canned(x, Blocked, MALICIOUS_REPLY, true)
    else
      var route := RouteFrom(TurnsOf(x), x.question, 0);
      var ordinary := Ordinary(route, Branch(x, route));
      ordinary.(notes := Opening(x) + ordinary.notes)
  }

  // ---- the generator ----

  function Traces(notes: seq<Note>): nat {
    if notes == [] then 0 else Traces(notes[..|notes| - 1]) + if notes[|notes| - 1].Trace? then 1 else 0
  }

  // Frame i: numbered from 1, and a trace frame carries the number of traces so far.
  ghost predicate NumberedAt(frames: seq<Frame>, notes: seq<Note>, i: nat)
    requires i < |frames| && i < |notes|
  {
    frames[i] == Frame(i + 1, if notes[i].Trace? then Traces(notes[..i + 1]) else 0, notes[i])
  }

  ghost predicate Numbered(frames: seq<Frame>, notes: seq<Note>) {
    |frames| == |notes| && forall i :: 0 <= i < |frames| ==> NumberedAt(frames, notes, i)
  }

  ghost predicate Counted(traceStep: nat, notes: seq<Note>) {
    forall n :: n == |notes| ==> traceStep == Traces(notes[..n])
  }

  lemma SendKeeps(seqNo: nat, traceStep: nat, frames: seq<Frame>, notes: seq<Note>, note: Note)
    requires Numbered(frames, notes) && Counted(traceStep, notes) && seqNo == |notes|
    ensures var step := if note.Trace? then traceStep + 1 else traceStep;
            && Counted(step, notes + [note])
            && Numbered(frames + [Frame(seqNo + 1, if note.Trace? then step else 0, note)], notes + [note])
  {
    var step := if note.Trace? then traceStep + 1 else traceStep;
    var frames', notes' := frames + [Frame(seqNo + 1, if note.Trace? then step else 0, note)], notes + [note];
    assert notes[..|notes|] == notes && notes'[..|notes|] == notes && notes'[..|notes'|] == notes';
    assert Traces(notes') == step;
    forall i | 0 <= i < |frames'| ensures NumberedAt(frames', notes', i) {
      if i < |frames| {
        assert NumberedAt(frames, notes, i);
        assert notes'[..i + 1] == notes[..i + 1];
      }
    }
  }

  // The two counters and what has been sent.
  class Writer {
    var seqNo: nat
    var traceStep: nat
    var frames: seq<Frame>
    ghost var notes: seq<Note>

    ghost predicate Valid()
      reads this
    {
      seqNo == |notes| && Counted(traceStep, notes) && Numbered(frames, notes)
    }

    constructor ()
      ensures Valid() && notes == []
    {
      seqNo, traceStep, frames, notes := 0, 0, [], [];
    }

    method Send(note: Note)
      requires Valid() && !note.Trace?
      modifies this
      ensures Valid() && notes == old(notes) + [note]
    {
      SendKeeps(seqNo, traceStep, frames, notes, note);
      seqNo := seqNo + 1;
      frames := frames + [Frame(seqNo, 0, note)];
      notes := notes + [note];
    }

    method SendTrace(phase: Phase, status: Status, tool: Option<string>)
      requires Valid()
      modifies this
      ensures Valid() && notes == old(notes) + [Trace(phase, status, tool)]
    {
      SendKeeps(seqNo, traceStep, frames, notes, Trace(phase, status, tool));
      seqNo := seqNo + 1;
      traceStep := traceStep + 1;
      frames := frames + [Frame(seqNo, traceStep, Trace(phase, status, tool))];
      notes := notes + [Trace(phase, status, tool)];
    }

    // Passes the model's deltas on and adds up its usage, until the call ends or breaks off.
    method Relay(chunks: seq<Gateway.Chunk>) returns (text: string, usage: nat)
      requires Valid()
      modifies this
      ensures Valid() && notes == old(notes) + DeltasOf(chunks)
      ensures text == Said(DeltasOf(chunks)) && usage == UsageOf(chunks)
    {
      text, usage := "", 0;
      assert chunks[..0] == [];
      for i := 0 to |chunks|
        invariant Valid() && notes == old(notes) + DeltasOf(chunks[..i])
        invariant text == Said(DeltasOf(chunks[..i])) && usage == UsageOf(chunks[..i])
      {
        assert chunks[..i + 1][..i] == chunks[..i];
        assert DeltasOf(chunks[..i]) + [] == DeltasOf(chunks[..i]);
        match chunks[i]
        case Usage(n) => usage := usage + n;
        case Delta(d) =>
          Send(Delta(d));
          text := text + d;
          SaidMore(DeltasOf(chunks[..i]), Delta(d));
          assert DeltasOf(chunks[..i + 1]) == DeltasOf(chunks[..i]) + [Delta(d)];
        case _ =>
      }
      assert chunks[..|chunks|] == chunks;
    }
  }

  lemma SaidMore(notes: seq<Note>, note: Note)
    ensures Said(notes + [note]) == Said(notes) + if note.Delta? then note.text else ""
  {
    assert (notes + [note])[..|notes|] == notes;
  }

  method StreamAnswer(x: Inputs)
    returns (frames: seq<Frame>, messages: seq<Message>, ran: seq<ToolRun>, put: Option<Cache.Entry>)
    ensures Numbered(frames, Script(x).notes) && messages == Script(x).messages
    ensures ran == Script(x).ran && put == Script(x).put
  {
    var persist := x.principal && x.conversation && x.repository;
    var w := new Writer();
    messages, ran, put := [], [], None;
    w.Send(Started(persist));
    w.SendTrace(Policy, Completed, None);
    if persist {
      messages := messages + [User(x.question)];
    }
    if x.greeting {
      messages := SendCanned(w, x, Completed, GREETING_REPLY, false);
      return w.frames, messages, [], None;
    }
    if x.privacy {
      messages := SendCanned(w, x, Blocked, PRIVACY_REPLY, true);
      return w.frames, messages, [], None;
    }
    if x.malicious {
      messages := SendCanned(w, x, Blocked, MALICIOUS_REPLY, true);
      return w.frames, messages, [], None;
    }
    ghost var turns := TurnsOf(x);
    ghost var finish := (route: Route) => Branch(x, route);
    assert w.notes == Opening(x);
    messages, ran, put := SendOrdinary(w, x, turns, finish);
    assert w.notes == Script(x).notes;
    frames := w.frames;
  }

  ghost predicate Finishes(finish: Route -> Session, x: Inputs) {
    forall route {:trigger Branch(x, route)} :: finish(route) == Branch(x, route)
  }

  method SendOrdinary(w: Writer, x: Inputs, ghost turns: Turns, ghost finish: Route -> Session)
    returns (messages: seq<Message>, ran: seq<ToolRun>, put: Option<Cache.Entry>)
    requires w.Valid() && AreTurns(turns, x) && Finishes(finish, x)
    modifies w
    ensures var route := RouteFrom(turns, x.question, 0);
            var o := Ordinary(route, finish(route));
            w.Valid() && w.notes == old(w.notes) + o.notes && messages == o.messages && ran == o.ran && put == o.put
  {
    w.SendTrace(Routing, Begun, None);
    var search, usage, broken;
    ghost var route;
    ran, search, usage, broken, route := RunTools(w, x, turns);
    messages, put := SendBranch(w, x, route, ran, search, usage, broken, finish);
    ThreeParts(old(w.notes), [Trace(Routing, Begun, None)], route.notes, finish(route).notes);
  }

  method SendBranch(
    w: Writer, x: Inputs, ghost route: Route, ran: seq<ToolRun>, search: Option<string>, usage: nat, broken: bool,
                    ghost finish: Route -> Session)
    returns (messages: seq<Message>, put: Option<Cache.Entry>)
    requires w.Valid() && SameEnd(Route([], ran, search, usage, broken), route) && Finishes(finish, x)
    modifies w
    ensures var branch := finish(route);
            && w.Valid() && w.notes == old(w.notes) + branch.notes
            && messages == branch.messages && put == branch.put && branch.ran == ran
  {
    messages, put := Asked(x), None;
    assert finish(route) == Branch(x, route);
    if broken {
      assert w.notes == w.notes + [];
      return;
    }
    if search.Some? || ran == [] {
      messages, put := SendFromKnowledge(w, x, route, ran, search, usage);
    } else {
      messages := SendFromTools(w, x, route, ran, usage);
    }
  }

  method SendCanned(w: Writer, x: Inputs, status: Status, text: string, offtopic: bool) returns (messages: seq<Message>)
    requires w.Valid() && w.notes == Opening(x)
    modifies w
    ensures w.Valid() && w.notes == Canned(x, status, text, offtopic).notes
    ensures messages == Canned(x, status, text, offtopic).messages
  {
    messages := if Persists(x) then [User(x.question)] else [];
    w.SendTrace(Routing, status, None);
    w.SendTrace(Result, status, None);
    w.Send(Delta(text));
    w.Send(Citations([]));
    w.Send(Answered(false, offtopic, None));
    if Persists(x) {
      messages := messages + [Assistant(text, offtopic, false, 0)];
    }
  }

  lemma ThreeParts(sent: seq<Note>, a: seq<Note>, b: seq<Note>, c: seq<Note>)
    ensures sent + (a + b + c) == ((sent + a) + b) + c
  {}

  ghost predicate SameEnd(a: Route, b: Route) {
    a.ran == b.ran && a.search == b.search && a.usage == b.usage && a.broken == b.broken
  }

  // What has been done so far and what the rest of the route adds make up the whole.
  ghost predicate MakesUp(sent: seq<Note>, ran: seq<ToolRun>, usage: nat, rest: Route, goal: seq<Note>, route: Route) {
    && goal == sent + rest.notes
    && route.ran == ran + rest.ran && route.usage == usage + rest.usage
    && route.search == rest.search && route.broken == rest.broken
  }

  lemma OneToolMore(
    sent: seq<Note>, ran: seq<ToolRun>, usage: nat, turn: Turn, rest: Route, goal: seq<Note>, route: Route)
    requires turn.choice.Runs? && MakesUp(sent, ran, usage, AfterTool(turn, rest), goal, route)
    ensures MakesUp(sent + [ToolTrace(turn.choice.name, turn.choice.outcome)],
                    ran + [ToolRun(turn.choice.name, turn.choice.outcome)], usage + turn.usage, rest, goal, route)
  {
    var trace, run := ToolTrace(turn.choice.name, turn.choice.outcome), ToolRun(turn.choice.name, turn.choice.outcome);
    assert sent + ([trace] + rest.notes) == (sent + [trace]) + rest.notes;
    assert ran + ([run] + rest.ran) == (ran + [run]) + rest.ran;
  }

  // The tool loop: at most MAX_STEPS turns of the model.
  method RunTools(w: Writer, x: Inputs, ghost turns: Turns)
    returns (ran: seq<ToolRun>, search: Option<string>, usage: nat, broken: bool, ghost route: Route)
    requires w.Valid() && AreTurns(turns, x)
    modifies w
    ensures route == RouteFrom(turns, x.question, 0)
    ensures w.Valid() && w.notes == old(w.notes) + route.notes
    ensures SameEnd(Route([], ran, search, usage, broken), route)
  {
    ran, search, usage, broken := [], None, 0, false;
    route := RouteFrom(turns, x.question, 0);
    ghost var rest, goal := route, w.notes + route.notes;
    var step := 0;
    while step < MAX_STEPS
      invariant 0 <= step <= MAX_STEPS && w.Valid() && |ran| == step && search == None && !broken
      invariant rest == RouteFrom(turns, x.question, step) && MakesUp(w.notes, ran, usage, rest, goal, route)
    {
      var turn := AskModel(x, step, turns);
      if !turn.choice.Runs? {
        search, broken := EndLoop(w, turn, x.question, ran, usage, goal, route);
        usage := usage + turn.usage;
        return;
      }
      var name, outcome := turn.choice.name, turn.choice.outcome;
      rest := RouteFrom(turns, x.question, step + 1);
      OneToolMore(w.notes, ran, usage, turn, rest, goal, route);
      usage := usage + turn.usage;
      ran := ran + [ToolRun(name, outcome)];
      w.SendTrace(Tool, StatusOf(outcome), Some(name));
      step := step + 1;
    }
    assert w.notes + [] == w.notes && ran + [] == ran;
  }

  // What follows the last turn: the reason why the loop ends there.
  method EndLoop(
    w: Writer, turn: Turn, question: string, ran: seq<ToolRun>, ghost usage: nat, ghost goal: seq<Note>,
    ghost route: Route)
    returns (search: Option<string>, broken: bool)
    requires w.Valid() && !turn.choice.Runs?
    requires MakesUp(w.notes, ran, usage, EndOf(turn, question, ran == []), goal, route)
    modifies w
    ensures w.Valid() && w.notes == goal
    ensures SameEnd(Route([], ran, search, usage + turn.usage, broken), route)
  {
    search, broken := None, false;
    ghost var sent := w.notes;
    ghost var end := EndOf(turn, question, ran == []);
    assert goal == sent + end.notes && sent + [] == sent && ran + [] == ran;
    match turn.choice {
      case Breaks =>
        w.SendTrace(Routing, Broken, None);
        w.Send(Problem);
        broken := true;
        assert w.notes == sent + end.notes;
        return;
      case Direct =>
      case Searches(query) =>
        search := Some(query);
        w.SendTrace(Routing, Completed, Some(SEARCH));
      case Unoffered =>
        search := Some(question);
        w.SendTrace(Tool, Blocked, None);
    }
    if search == None && ran == [] {
      w.SendTrace(Routing, Completed, None);
    }
  }

  // The call to the model, its first tool call, and the tool's result.
  method AskModel(x: Inputs, step: nat, ghost turns: Turns) returns (turn: Turn)
    requires AreTurns(turns, x)
    ensures turn == turns(step)
  {
    assert turns(step) == TurnAt(x, step);
    var reply := x.turns(step);
    var usage := UsageOf(reply.chunks);
    if reply.breaks {
      return Turn(Breaks, usage);
    }
    var call := FirstCall(reply.chunks);
    if call == None {
      return Turn(Direct, usage);
    }
    var name := call.value.name;
    if name == SEARCH {
      return Turn(Searches(SearchQuery(x, call.value.arguments)), usage);
    }
    if name !in TOOLS {
      return Turn(Unoffered, usage);
    }
    var outcome := Run(x, step);
    return Turn(Runs(name, outcome), usage);
  }

  method SendFromCache(w: Writer, x: Inputs, ghost route: Route, answer: string, citations: seq<Cache.Citation>)
    requires w.Valid()
    modifies w
    ensures w.Valid() && w.notes == old(w.notes) + FromCache(x, route, answer, citations).notes
  {
    w.SendTrace(Retrieval, Completed, None);
    w.Send(Delta(answer));
    w.Send(Citations(citations));
    w.SendTrace(Result, Completed, None);
    w.Send(Answered(true, false, None));
  }

  method SendRefusal(w: Writer, x: Inputs, ghost route: Route, query: string)
    requires w.Valid()
    modifies w
    ensures w.Valid() && w.notes == old(w.notes) + Refusal(x, route, query).notes
  {
    w.SendTrace(Retrieval, Blocked, Some(SEARCH));
    w.SendTrace(Result, Blocked, None);
    w.Send(ToolCalls(query, []));
    w.Send(Delta(OFFTOPIC_REPLY));
    w.Send(Citations([]));
    w.Send(Answered(false, true, None));
  }

  method SendGrounded(w: Writer, x: Inputs, ghost route: Route, query: string, hits: seq<Cache.Citation>, usage: nat)
    returns (text: string)
    requires w.Valid() && usage == route.usage
    modifies w
    ensures w.Valid() && w.notes == old(w.notes) + Grounded(x, route, query, hits).notes
    ensures text == Said(DeltasOf(x.reply.chunks))
  {
    w.SendTrace(Retrieval, Completed, Some(SEARCH));
    w.Send(ToolCalls(query, hits));
    w.SendTrace(Generation, Begun, None);
    assert w.notes == old(w.notes) + Evidence(query, hits);
    text := SendCited(w, x, route, hits, usage);
    assert w.notes == old(w.notes) + (Evidence(query, hits) + Cited(x, route, hits));
  }

  method SendCited(
    w: Writer, x: Inputs, ghost route: Route, hits: seq<Cache.Citation>, usage: nat) returns (text: string)
    requires w.Valid() && usage == route.usage
    modifies w
    ensures w.Valid() && w.notes == old(w.notes) + Cited(x, route, hits)
    ensures text == Said(DeltasOf(x.reply.chunks))
  {
    var used;
    text, used := w.Relay(x.reply.chunks);
    ghost var sent := w.notes;
    if x.reply.breaks {
      w.SendTrace(Generation, Broken, None);
      w.Send(Problem);
      assert w.notes == sent + [Trace(Generation, Broken, None), Problem];
      return;
    }
    w.SendTrace(Generation, Completed, None);
    w.Send(Citations(hits));
    w.SendTrace(Result, Completed, None);
    w.Send(Answered(true, false, Usage(usage + used)));
    assert w.notes == sent + [Trace(Generation, Completed, None), Citations(hits), Trace(Result, Completed, None),
                              Answered(true, false, Usage(usage + used))];
  }

  method SendFromKnowledge(
    w: Writer, x: Inputs, ghost route: Route, ran: seq<ToolRun>, search: Option<string>, usage: nat)
    returns (messages: seq<Message>, put: Option<Cache.Entry>)
    requires w.Valid() && SameEnd(Route([], ran, search, usage, false), route)
    modifies w
    ensures w.Valid() && w.notes == old(w.notes) + FromKnowledge(x, route).notes
    ensures messages == FromKnowledge(x, route).messages && put == FromKnowledge(x, route).put
  {
    messages, put := Asked(x), None;
    var eligible := x.cached && !x.principal && !x.conversation && ran == [];
    if eligible && x.lookup.Found? {
      SendFromCache(w, x, route, x.lookup.answer, x.lookup.citations);
      return;
    }
    var query := if search.Some? && search.value != "" then search.value else x.question;
    var candidates := SearchCandidates(x, query);
    if candidates == [] {
      SendRefusal(w, x, route, query);
      messages := Stored(x, OFFTOPIC_REPLY, true, false, 0);
      return;
    }
    var hits := Sources(candidates);
    var text := SendGrounded(w, x, route, query, hits, usage);
    if !x.reply.breaks {
      if eligible && x.lookup.Miss? {
        put := Some(Cache.Entry(x.embedding, text, hits, x.model));
      }
      messages := Stored(x, text, false, true, |hits|);
    }
  }

  method SendCards(w: Writer, ran: seq<ToolRun>)
    requires w.Valid()
    modifies w
    ensures w.Valid() && w.notes == old(w.notes) + Cards(ran)
  {
    assert ran[..0] == [];
    for i := 0 to |ran|
      invariant w.Valid() && w.notes == old(w.notes) + Cards(ran[..i])
    {
      assert ran[..i + 1][..i] == ran[..i];
      if ran[i].name in {BOOK, CANCEL, RESCHEDULE} {
        w.Send(Booking(ran[i].outcome));
      }
    }
    assert ran[..|ran|] == ran;
  }

  method SendFromTools(
    w: Writer, x: Inputs, ghost route: Route, ran: seq<ToolRun>, usage: nat) returns (messages: seq<Message>)
    requires w.Valid() && ran == route.ran && usage == route.usage
    modifies w
    ensures w.Valid() && w.notes == old(w.notes) + FromTools(x, route).notes
    ensures messages == FromTools(x, route).messages
  {
    w.SendTrace(Routing, Completed, None);
    SendCards(w, ran);
    w.SendTrace(Generation, Begun, None);
    assert w.notes == old(w.notes) + Intro(ran);
    messages := SendExplained(w, x, route, usage);
    assert w.notes == old(w.notes) + (Intro(ran) + Explained(x, route));
  }

  method SendExplained(w: Writer, x: Inputs, ghost route: Route, usage: nat) returns (messages: seq<Message>)
    requires w.Valid() && usage == route.usage
    modifies w
    ensures w.Valid() && w.notes == old(w.notes) + Explained(x, route)
    ensures messages == FromTools(x, route).messages
  {
    messages := Asked(x);
    var text, used := w.Relay(x.reply.chunks);
    ghost var sent := w.notes;
    if x.reply.breaks {
      w.SendTrace(Generation, Broken, None);
      w.Send(Problem);
      assert w.notes == sent + [Trace(Generation, Broken, None), Problem];
      return;
    }
    w.SendTrace(Generation, Completed, None);
    w.SendTrace(Result, Completed, None);
    w.Send(Answered(false, false, Usage(usage + used)));
    assert w.notes == sent + [Trace(Generation, Completed, None), Trace(Result, Completed, None),
           Answered(false, false, Usage(usage + used))];
    messages := Stored(x, text, false, false, 0);
  }

  // ---- what every drained stream is like ----

  // The traces are numbered 1, 2, ... without a gap.
  lemma {:induction false} EveryStepSent(frames: seq<Frame>, notes: seq<Note>, m: nat, step: nat) returns (i: nat)
    requires Numbered(frames, notes) && m <= |notes| && 1 <= step <= Traces(notes[..m])
    ensures i < m && frames[i].note.Trace? && frames[i].step == step
  {
    assert notes[..m][..m - 1] == notes[..m - 1];
    assert NumberedAt(frames, notes, m - 1);
    if notes[m - 1].Trace? && Traces(notes[..m]) == step {
      i := m - 1;
    } else {
      i := EveryStepSent(frames, notes, m - 1, step);
    }
  }

  lemma {:induction false} TracesGrow(notes: seq<Note>, i: nat, j: nat)
    requires i <= j <= |notes|
    ensures Traces(notes[..i]) <= Traces(notes[..j])
    decreases j
  {
    if i < j {
      assert notes[..j][..j - 1] == notes[..j - 1];
      TracesGrow(notes, i, j - 1);
    }
  }

  ghost predicate StepSent(frames: seq<Frame>, step: int) {
    exists i :: 0 <= i < |frames| && frames[i].note.Trace? && frames[i].step == step
  }

  // Each frame has the next number; each trace the next step.
  lemma NumbersHaveNoGaps(frames: seq<Frame>, notes: seq<Note>)
    requires Numbered(frames, notes)
    ensures forall i :: 0 <= i < |frames| ==> frames[i].seqNo == i + 1
    ensures forall i, j :: 0 <= i < j < |frames| && frames[i].note.Trace? && frames[j].note.Trace? ==>
              frames[i].step < frames[j].step
    ensures forall step :: StepSent(frames, step) <==> 1 <= step <= Traces(notes)
  {
    assert notes[..|notes|] == notes;
    forall i | 0 <= i < |frames|
      ensures frames[i].seqNo == i + 1 && frames[i].note == notes[i]
      ensures frames[i].note.Trace? ==> frames[i].step == Traces(notes[..i]) + 1 <= Traces(notes)
    {
      assert NumberedAt(frames, notes, i);
      assert notes[..i + 1][..i] == notes[..i];
      TracesGrow(notes, i + 1, |notes|);
    }
    forall i, j | 0 <= i < j < |frames| && frames[i].note.Trace? && frames[j].note.Trace?
      ensures frames[i].step < frames[j].step
    {
      assert NumberedAt(frames, notes, i);
      TracesGrow(notes, i + 1, j);
    }
    forall step ensures StepSent(frames, step) <==> 1 <= step <= Traces(notes) {
      if 1 <= step <= Traces(notes) {
        var i := EveryStepSent(frames, notes, |notes|, step);
        assert StepSent(frames, step);
      }
    }
  }

  predicate IsEnd(note: Note) {
    note.Answered? || note.Problem?
  }

  ghost predicate Unended(notes: seq<Note>) {
    forall i :: 0 <= i < |notes| ==> !IsEnd(notes[i])
  }

  // One end, which comes last.
  ghost predicate EndsWith(notes: seq<Note>, end: Note) {
    && notes != [] && notes[|notes| - 1] == end && IsEnd(end)
    && forall i :: 0 <= i < |notes| - 1 ==> !IsEnd(notes[i])
  }

  lemma EndsAfter(a: seq<Note>, b: seq<Note>, end: Note)
    requires Unended(a) && EndsWith(b, end)
    ensures EndsWith(a + b, end)
  {
    forall i | 0 <= i < |a + b| - 1 ensures !IsEnd((a + b)[i]) {
      assert (a + b)[i] == if i < |a| then a[i] else b[i - |a|];
    }
  }

  lemma {:induction false} SaidTogether(a: seq<Note>, b: seq<Note>)
    ensures Said(a + b) == Said(a) + Said(b)
  {
    if b == [] {
      assert a + b == a;
    } else {
      var n := |b| - 1;
      assert (a + b)[..|a + b| - 1] == a + b[..n];
      SaidTogether(a, b[..n]);
    }
  }

  ghost predicate NoText(notes: seq<Note>) {
    forall i :: 0 <= i < |notes| ==> !notes[i].Delta?
  }

  lemma {:induction false} NothingSaid(notes: seq<Note>)
    requires NoText(notes)
    ensures Said(notes) == ""
  {
    if notes != [] {
      NothingSaid(notes[..|notes| - 1]);
    }
  }

  lemma SaidBetween(before: seq<Note>, said: seq<Note>, after: seq<Note>)
    requires NoText(before) && NoText(after)
    ensures Said(before + (said + after)) == Said(said)
  {
    SaidTogether(before, said + after);
    SaidTogether(said, after);
    NothingSaid(before);
    NothingSaid(after);
  }

  lemma {:induction false} DeltasAreUnended(chunks: seq<Gateway.Chunk>)
    ensures Unended(DeltasOf(chunks))
  {
    if chunks != [] {
      DeltasAreUnended(chunks[..|chunks| - 1]);
    }
  }

  lemma {:induction false} CardsAreQuiet(ran: seq<ToolRun>)
    ensures Unended(Cards(ran)) && NoText(Cards(ran))
  {
    if ran != [] {
      CardsAreQuiet(ran[..|ran| - 1]);
    }
  }

  // ---- the tool loop ----

  // A tool that is run is one of those offered, and without an account it is refused.
  predicate Allowed(x: Inputs, run: ToolRun) {
    run.name in TOOLS && run.name != SEARCH && (!x.principal ==> run.outcome == Forbidden)
  }

  ghost predicate AllAllowed(x: Inputs, turns: Turns) {
    forall step {:trigger turns(step)} ::
      turns(step).choice.Runs? ==> Allowed(x, ToolRun(turns(step).choice.name, turns(step).choice.outcome))
  }

  // A broken route has an end, and any other has none; neither says anything.
  ghost predicate RouteEnds(route: Route) {
    NoText(route.notes) && if route.broken then EndsWith(route.notes, Problem) else Unended(route.notes)
  }

  ghost predicate RunsFew(x: Inputs, most: nat, route: Route) {
    |route.ran| <= most && forall i :: 0 <= i < |route.ran| ==> Allowed(x, route.ran[i])
  }

  lemma ToolBefore(turn: Turn, rest: Route)
    requires turn.choice.Runs? && RouteEnds(rest)
    ensures RouteEnds(AfterTool(turn, rest))
  {
    if rest.broken {
      EndsAfter([ToolTrace(turn.choice.name, turn.choice.outcome)], rest.notes, Problem);
    }
  }

  lemma LastEnds(turn: Turn, question: string, first: bool)
    requires !turn.choice.Runs?
    ensures RouteEnds(EndOf(turn, question, first))
  {}

  lemma {:induction false} RouteEndsWell(turns: Turns, question: string, step: nat)
    requires step <= MAX_STEPS
    ensures RouteEnds(RouteFrom(turns, question, step))
    decreases MAX_STEPS - step
  {
    if step < MAX_STEPS {
      if turns(step).choice.Runs? {
        RouteEndsWell(turns, question, step + 1);
        ToolBefore(turns(step), RouteFrom(turns, question, step + 1));
      } else {
        LastEnds(turns(step), question, step == 0);
      }
    }
  }

  lemma {:induction false} RouteRunsFew(x: Inputs, turns: Turns, step: nat)
    requires step <= MAX_STEPS && AllAllowed(x, turns)
    ensures RunsFew(x, MAX_STEPS - step, RouteFrom(turns, x.question, step))
    decreases MAX_STEPS - step
  {
    if step < MAX_STEPS && turns(step).choice.Runs? {
      RouteRunsFew(x, turns, step + 1);
    }
  }

  lemma TurnsAllowed(x: Inputs)
    ensures AllAllowed(x, TurnsOf(x))
  {
    forall step
      ensures TurnsOf(x)(step).choice.Runs? ==>
              Allowed(x, ToolRun(TurnsOf(x)(step).choice.name, TurnsOf(x)(step).choice.outcome))
    {
      assert TurnsOf(x)(step) == TurnAt(x, step);
    }
  }

  lemma RanIsRoute(x: Inputs)
    ensures Script(x).ran == [] || Script(x).ran == RouteFrom(TurnsOf(x), x.question, 0).ran
  {}

  // At most four tools are run, each of them offered; without an account none has an effect.
  lemma ToolsAreBounded(x: Inputs)
    ensures |Script(x).ran| <= 4
    ensures forall i :: 0 <= i < |Script(x).ran| ==> Allowed(x, Script(x).ran[i])
  {
    TurnsAllowed(x);
    RouteRunsFew(x, TurnsOf(x), 0);
    RanIsRoute(x);
  }

  // ---- one end, grounding, storage ----

  // The cache found an answer that cites nothing.
  predicate CacheGaveNothing(x: Inputs) {
    x.lookup.Found? && x.lookup.citations == []
  }

  // How a session ends, when its last note is known.
  ghost predicate Concludes(x: Inputs, s: Session, end: Note, text: string, hits: seq<Cache.Citation>) {
    match end
    case Problem => s.messages == Asked(x) && s.put == None
    case Answered(grounded, offtopic, _) =>
      && s.messages == Stored(x, text, offtopic, grounded, |hits|)
      && (if grounded
          then Citations(hits) in s.notes && (hits != [] || CacheGaveNothing(x))
          else hits == [] && s.put == None)
      && (s.put.Some? ==> && !x.principal && !x.conversation && s.ran == [] && hits != []
                          && s.put.value.answer == text && s.put.value.citations == hits)
    case _ => false
  }

  // What a session says and how it ends; `text` and `hits` are what it streams and cites.
  ghost predicate WellEnded(x: Inputs, s: Session, end: Note, text: string, hits: seq<Cache.Citation>) {
    EndsWith(s.notes, end) && Said(s.notes) == text && Concludes(x, s, end, text, hits)
  }

  lemma CannedEnds(x: Inputs, status: Status, text: string, offtopic: bool)
    ensures WellEnded(x, Canned(x, status, text, offtopic), Answered(false, offtopic, None), text, [])
  {
    var before := Opening(x) + [Trace(Routing, status, None), Trace(Result, status, None)];
    var after := [Citations([]), Answered(false, offtopic, None)];
    assert Canned(x, status, text, offtopic).notes == before + ([Delta(text)] + after);
    TextBetween(before, text, after);
  }

  lemma TextBetween(before: seq<Note>, text: string, after: seq<Note>)
    requires NoText(before) && NoText(after)
    ensures Said(before + ([Delta(text)] + after)) == text
  {
    SaidBetween(before, [Delta(text)], after);
    assert [Delta(text)][..0] == [];
    assert Said([Delta(text)]) == Said([]) + text;
  }

  lemma CacheEnds(x: Inputs, route: Route)
    requires Eligible(x, route.ran) && x.lookup.Found?
    ensures WellEnded(x, FromCache(x, route, x.lookup.answer, x.lookup.citations), Answered(true, false, None),
                      x.lookup.answer, x.lookup.citations)
  {
    var notes := FromCache(x, route, x.lookup.answer, x.lookup.citations).notes;
    var after := [Citations(x.lookup.citations), Trace(Result, Completed, None), Answered(true, false, None)];
    assert notes == [Trace(Retrieval, Completed, None)] + ([Delta(x.lookup.answer)] + after);
    TextBetween([Trace(Retrieval, Completed, None)], x.lookup.answer, after);
    assert notes[2] == Citations(x.lookup.citations);
  }

  lemma RefusalEnds(x: Inputs, route: Route, query: string)
    ensures WellEnded(x, Refusal(x, route, query), Answered(false, true, None), OFFTOPIC_REPLY, [])
  {
    var before := [Trace(Retrieval, Blocked, Some(SEARCH)), Trace(Result, Blocked, None), ToolCalls(query, [])];
    var after := [Citations([]), Answered(false, true, None)];
    assert Refusal(x, route, query).notes == before + ([Delta(OFFTOPIC_REPLY)] + after);
    TextBetween(before, OFFTOPIC_REPLY, after);
  }

  lemma TailEnds(hits: seq<Cache.Citation>, usage: Option<nat>)
    ensures EndsWith(BROKEN, Problem) && NoText(BROKEN)
    ensures EndsWith(CitedTail(hits, usage), Answered(true, false, usage)) && NoText(CitedTail(hits, usage))
    ensures EndsWith(ToldTail(usage), Answered(false, false, usage)) && NoText(ToldTail(usage))
  {}

  // Quiet notes, the deltas of a reply, and a tail.
  lemma ReplyEnds(before: seq<Note>, chunks: seq<Gateway.Chunk>, tail: seq<Note>, end: Note)
    requires Unended(before) && NoText(before) && EndsWith(tail, end) && NoText(tail)
    ensures EndsWith(before + (DeltasOf(chunks) + tail), end)
    ensures Said(before + (DeltasOf(chunks) + tail)) == Said(DeltasOf(chunks))
  {
    DeltasAreUnended(chunks);
    EndsAfter(DeltasOf(chunks), tail, end);
    EndsAfter(before, DeltasOf(chunks) + tail, end);
    SaidBetween(before, DeltasOf(chunks), tail);
  }

  lemma InTail(before: seq<Note>, said: seq<Note>, tail: seq<Note>, note: Note)
    requires note in tail
    ensures note in before + (said + tail)
  {}

  lemma Concluding(x: Inputs, notes: seq<Note>, end: Note, text: string, hits: seq<Cache.Citation>,
                   messages: seq<Message>, ran: seq<ToolRun>, put: Option<Cache.Entry>)
    requires EndsWith(notes, end) && Said(notes) == text
    requires Concludes(x, Session(notes, messages, ran, put), end, text, hits)
    ensures WellEnded(x, Session(notes, messages, ran, put), end, text, hits)
  {}

  ghost function GroundedEnd(x: Inputs, route: Route): Note {
    if x.reply.breaks then Problem else Answered(true, false, Usage(route.usage + UsageOf(x.reply.chunks)))
  }

  lemma GroundedEnds(x: Inputs, route: Route, query: string, hits: seq<Cache.Citation>)
    requires hits != []
    ensures WellEnded(x, Grounded(x, route, query, hits), GroundedEnd(x, route), Said(DeltasOf(x.reply.chunks)), hits)
  {
    var s, end := Grounded(x, route, query, hits), GroundedEnd(x, route);
    var usage := Usage(route.usage + UsageOf(x.reply.chunks));
    var tail := if x.reply.breaks then BROKEN else CitedTail(hits, usage);
    TailEnds(hits, usage);
    ReplyEnds(Evidence(query, hits), x.reply.chunks, tail, end);
    if !x.reply.breaks {
      assert tail[1] == Citations(hits);
      InTail(Evidence(query, hits), DeltasOf(x.reply.chunks), tail, Citations(hits));
    }
    Concluding(x, s.notes, end, Said(DeltasOf(x.reply.chunks)), hits, s.messages, s.ran, s.put);
  }

  ghost function ToolsEnd(x: Inputs, route: Route): Note {
    if x.reply.breaks then Problem else Answered(false, false, Usage(route.usage + UsageOf(x.reply.chunks)))
  }

  lemma IntroIsQuiet(ran: seq<ToolRun>)
    ensures Unended(Intro(ran)) && NoText(Intro(ran))
  {
    CardsAreQuiet(ran);
  }

  lemma FromToolsEnds(x: Inputs, route: Route)
    ensures WellEnded(x, FromTools(x, route), ToolsEnd(x, route), Said(DeltasOf(x.reply.chunks)), [])
  {
    var s, end := FromTools(x, route), ToolsEnd(x, route);
    var usage := Usage(route.usage + UsageOf(x.reply.chunks));
    IntroIsQuiet(route.ran);
    TailEnds([], usage);
    ReplyEnds(Intro(route.ran), x.reply.chunks, if x.reply.breaks then BROKEN else ToldTail(usage), end);
    Concluding(x, s.notes, end, Said(DeltasOf(x.reply.chunks)), [], s.messages, s.ran, s.put);
  }

  ghost predicate WellDone(x: Inputs, s: Session) {
    exists end, text, hits :: WellEnded(x, s, end, text, hits)
  }

  lemma BranchEnds(x: Inputs, route: Route)
    requires !route.broken
    ensures WellDone(x, Branch(x, route))
  {
    if route.search.Some? || route.ran == [] {
      var query := QueryOf(x, route);
      var hits := Sources(Merged(x, query));
      if Eligible(x, route.ran) && x.lookup.Found? {
        CacheEnds(x, route);
      } else if hits == [] {
        RefusalEnds(x, route, query);
      } else {
        GroundedEnds(x, route, query, hits);
      }
    } else {
      FromToolsEnds(x, route);
    }
  }

  // Notes in front of a session, without an end or a text, change none of this.
  lemma InFront(x: Inputs, before: seq<Note>, s: Session, all: seq<Note>)
    requires Unended(before) && NoText(before) && WellDone(x, s) && all == before + s.notes
    ensures WellDone(x, s.(notes := all))
  {
    var end, text, hits :| WellEnded(x, s, end, text, hits);
    EndsAfter(before, s.notes, end);
    SaidTogether(before, s.notes);
    NothingSaid(before);
    assert Citations(hits) in s.notes ==> Citations(hits) in all;
    Concluding(x, all, end, text, hits, s.messages, s.ran, s.put);
  }

  lemma RoutedEnds(x: Inputs, route: Route)
    requires RouteEnds(route)
    ensures var branch := Branch(x, route); WellDone(x, branch.(notes := route.notes + branch.notes))
  {
    var branch := Branch(x, route);
    if route.broken {
      assert route.notes + [] == route.notes;
      NothingSaid(route.notes);
      Concluding(x, route.notes, Problem, "", [], branch.messages, branch.ran, branch.put);
    } else {
      BranchEnds(x, route);
      InFront(x, route.notes, branch, route.notes + branch.notes);
    }
  }

  lemma Regroup(a: seq<Note>, b: seq<Note>, c: seq<Note>, d: seq<Note>)
    ensures a + (b + c + d) == (a + b) + (c + d)
  {}

  lemma OrdinaryEnds(x: Inputs, route: Route)
    requires RouteEnds(route)
    ensures var o := Ordinary(route, Branch(x, route)); WellDone(x, o.(notes := Opening(x) + o.notes))
  {
    var branch := Branch(x, route);
    var before := Opening(x) + [Trace(Routing, Begun, None)];
    RoutedEnds(x, route);
    Regroup(Opening(x), [Trace(Routing, Begun, None)], route.notes, branch.notes);
    InFront(x, before, branch.(notes := route.notes + branch.notes), before + (route.notes + branch.notes));
  }

  lemma ScriptEnds(x: Inputs)
    ensures WellDone(x, Script(x))
  {
    if x.greeting {
      CannedEnds(x, Completed, GREETING_REPLY, false);
    } else if x.privacy {
      CannedEnds(x, Blocked, PRIVACY_REPLY, true);
    } else if x.malicious {
      CannedEnds(x, Blocked, MALICIOUS_REPLY, true);
    } else {
      RouteEndsWell(TurnsOf(x), x.question, 0);
      OrdinaryEnds(x, RouteFrom(TurnsOf(x), x.question, 0));
    }
  }

  // ---- the theorems ----

  ghost predicate EndsOnce(notes: seq<Note>) {
    exists end :: EndsWith(notes, end)
  }

  // Every stream starts with the started frame, has one end, and that is its last frame.
  lemma StreamEndsOnce(x: Inputs)
    ensures Script(x).notes != [] && Script(x).notes[0] == Started(Persists(x))
    ensures EndsOnce(Script(x).notes)
  {
    ScriptEnds(x);
    var end, text, hits :| WellEnded(x, Script(x), end, text, hits);
    assert EndsWith(Script(x).notes, end);
  }

  // Before a grounded completion a citations frame has named a source, and the stored answer
  // counts its sources, unless the cache found an answer without any.
  lemma GroundedIsCited(x: Inputs, end: Note)
    requires EndsWith(Script(x).notes, end) && end.Answered? && end.grounded && !CacheGaveNothing(x)
    ensures exists hits :: hits != [] && Citations(hits) in Script(x).notes
                        && Script(x).messages == Stored(x, Said(Script(x).notes), end.offtopic, true, |hits|)
  {
    ScriptEnds(x);
    var e, text, hits :| WellEnded(x, Script(x), e, text, hits);
    assert e == end;
  }

  // A conversation stores the question and, exactly if it was completed, the answer: the deltas
  // as they were streamed. Without a conversation nothing is stored.
  lemma StoredIffCompleted(x: Inputs, end: Note)
    requires EndsWith(Script(x).notes, end)
    ensures var messages := Script(x).messages;
            if !Persists(x) then messages == []
            else if end.Problem? then messages == [User(x.question)]
            else exists n ::
              messages == [User(x.question), Assistant(Said(Script(x).notes), end.offtopic, end.grounded, n)]
  {
    ScriptEnds(x);
    var e, text, hits :| WellEnded(x, Script(x), e, text, hits);
    assert e == end;
  }

  // Only a completed answer that cites something, given without account and conversation and
  // without running a tool, goes into the cache: as it was streamed, with what it cited.
  lemma CachedIsGrounded(x: Inputs, entry: Cache.Entry)
    requires Script(x).put == Some(entry)
    ensures entry.citations != [] && entry.answer == Said(Script(x).notes)
            && Citations(entry.citations) in Script(x).notes
    ensures !x.principal && !x.conversation && Script(x).ran == [] && Script(x).messages == []
  {
    ScriptEnds(x);
    var end, text, hits :| WellEnded(x, Script(x), end, text, hits);
  }

  // The cache that the streams fill never gives an answer without a source: what it finds was
  // put by some stream, and every stream's entry cites something.
  lemma CacheCites(
    ops: seq<Cache.Op>, streams: seq<Inputs>, ttl: int, max: nat, now: int, ns: Cache.Namespace, e: Cache.Entry)
    requires Cache.Monotone(ops, now) && |streams| == |ops|
    requires forall i :: 0 <= i < |ops| && ops[i].PutOp? ==> Script(streams[i]).put == Some(ops[i].e)
    requires e in Cache.Rows(Cache.After(Cache.NOTHING, ops, ttl, max), ns, now)
    ensures e.citations != []
  {
    Cache.OnlyPuts(ops, ttl, max, now, ns, e);
    var i :| 0 <= i < |ops| && ops[i].PutOp? && ops[i].ns == ns && ops[i].e == e;
    CachedIsGrounded(streams[i], e);
  }

  // ---- the search keeps the evidence of the question itself ----

  lemma {:induction false} DedupedFacts(cs: seq<Candidate>)
    ensures forall s :: s in Sources(Deduped(cs)) <==> s in Sources(cs)
    ensures forall i, j :: 0 <= i < j < |Deduped(cs)| ==> Deduped(cs)[i].source != Deduped(cs)[j].source
  {
    if cs != [] {
      var n := |cs| - 1;
      DedupedFacts(cs[..n]);
      assert Sources(cs) == Sources(cs[..n]) + [cs[n].source];
      if cs[n].source !in Sources(cs[..n]) {
        assert Sources(Deduped(cs)) == Sources(Deduped(cs[..n])) + [cs[n].source];
        forall i | 0 <= i < |Deduped(cs[..n])| ensures Deduped(cs[..n])[i].source != cs[n].source {
          assert Sources(Deduped(cs[..n]))[i] in Sources(Deduped(cs[..n]));
        }
      } else {
        assert Deduped(cs) == Deduped(cs[..n]);
      }
    }
  }

  // Whatever query the model chooses, every source that the question alone finds is kept, once.
  lemma QuestionEvidenceKept(x: Inputs, primary: string)
    ensures forall s :: s in Sources(Retrieved(x, x.question)) || s in Sources(Retrieved(x, primary)) <==>
              s in Sources(Merged(x, primary))
    ensures forall i, j :: 0 <= i < j < |Merged(x, primary)| ==>
              Merged(x, primary)[i].source != Merged(x, primary)[j].source
  {
    var a, b := Retrieved(x, primary), Retrieved(x, x.question);
    DedupedFacts(a + b);
    assert Sources(a + b) == Sources(a) + Sources(b);
  }
}

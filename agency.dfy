/** The orchestration rules of the travel agency (first_tests/francis_agency.py): a root
    supervisor routes work to three teams, each team is a supervisor with its own workers,
    and every worker hands control back to its supervisor.

    The language model, the ReAct agents and the child-graph runs are parameters of the
    model (uninterpreted functions). Nodes build fresh commands and mutate nothing, so they
    are functions here. `RunFrom` is an explicit runner over the message log with a step
    counter: it plays the transitions the nodes declare, so that the star topology can be
    stated over whole runs. */
module Agency {
  import opened Wrappers

  // ---------------------------------------------------------------------------
  // Messages and team state

  datatype Role = System | Human

  /** A chat message: the system prompt (no author) or a human message with an author. */
  datatype Message = Message(role: Role, name: Option<string>, content: string)

  /** A human message attributed to `name`. */
  function HumanMessage(content: string, name: string): Message
  {
    Message(Human, Some(name), content)
  }

  /** The state of one team: the message log and the two routing scratch keys. A key the
      state dictionary does not hold yet is `Absent`; one set from a `None` is `Null`. */
  datatype State = State(messages: seq<Message>, next: Field<string>, instructions: Field<string>)

  /** The last element of a non-empty sequence (Python's `xs[-1]`). */
  function Last<T>(xs: seq<T>): T
    requires |xs| > 0
  {
    xs[|xs| - 1]
  }

  // ---------------------------------------------------------------------------
  // Commands

  /** The runtime's end sentinel (its value in the graph library). */
  const End: string := "__end__"
  /** The router's terminal answer. */
  const Finish: string := "FINISH"
  const SupervisorName: string := "supervisor"

  /** The router's structured answer: the next node, and optional instructions, comment and
      answer for the user. */
  datatype Router = Router(next: string, instructions: Option<string>,
                           comment: Option<string>, answer: Option<string>)

  /** The `messages` value of an update: the supervisor passes its optional answer, a
      worker passes a list of messages. */
  datatype Payload = Answer(answer: Option<string>) | Batch(batch: seq<Message>)

  /** The update dictionary of a command: `next` and `instructions` are `Absent` when the
      node does not write them. */
  datatype Update = Update(next: Field<string>, instructions: Field<string>, messages: Payload)

  /** A node's result: the node to run next and the update to apply. */
  datatype Command = Command(goto: string, update: Update)

  /** An optional value as it lands in the update dictionary. */
  function FieldOf(o: Option<string>): (f: Field<string>)
    ensures f != Absent
    ensures f.Present? <==> o.Some?
    ensures f.Present? ==> f.value == o.value
  {
    match o
    case None => Null
    case Some(v) => Present(v)
  }

  // ---------------------------------------------------------------------------
  // Supervisor node (make_supervisor_node / supervisor_node)

  /** What the supervisor puts before the router: one system message, then the whole team
      history in its own order. */
  function RouterInput(systemPrompt: string, state: State): (r: seq<Message>)
    ensures |r| == |state.messages| + 1
    ensures r[0] == Message(System, None, systemPrompt)
    ensures forall k :: 0 <= k < |state.messages| ==> r[k + 1] == state.messages[k]
  {
    [Message(System, None, systemPrompt)] + state.messages
  }

  /** The supervisor turns one router decision into a command. `FINISH` becomes the end
      sentinel; every other name, including one that names no worker, is used unchanged. */
  function SupervisorNode(systemPrompt: string, router: seq<Message> -> Router,
                          state: State): (c: Command)
    ensures var d := router(RouterInput(systemPrompt, state));
            && (c.goto == End <==> d.next == Finish || d.next == End)
            && (d.next != Finish ==> c.goto == d.next)
            && c.update.next == Present(c.goto)
            && c.update.instructions == FieldOf(d.instructions)
            && c.update.messages == Answer(d.answer)
  {
    var d := router(RouterInput(systemPrompt, state));
    var goto := if d.next == Finish then End else d.next;
    Command(goto, Update(Present(goto), FieldOf(d.instructions), Answer(d.answer)))
  }

  // ---------------------------------------------------------------------------
  // Capability workers (search_node, meteo_node, search_flight_node, search_hotel_node)

  const SearchName: string := "search"
  const MeteoName: string := "meteo"
  const FlightName: string := "flight"
  const HotelName: string := "hotel"

  /** A capability worker runs its agent on the team state and hands back exactly one
      message: the agent's last message, re-attributed to the worker, and control goes back
      to the supervisor. An agent that returned no message makes `[-1]` raise. */
  function CapabilityWorker(name: string, agent: State -> seq<Message>,
                            state: State): (r: Result<Command, PyError>)
    ensures r.Err? <==> agent(state) == []
    ensures r.Err? ==> r.error == IndexError
    ensures r.Ok? ==> && r.value.goto == SupervisorName
                      && r.value.update.next == Absent
                      && r.value.update.instructions == Absent
                      && r.value.update.messages.Batch?
                      && |r.value.update.messages.batch| == 1
                      && r.value.update.messages.batch[0].name == Some(name)
                      && r.value.update.messages.batch[0].content == Last(agent(state)).content
    ensures r.Ok? ==> r.value.update.messages == Batch([HumanMessage(Last(agent(state)).content, name)])
  {
    var result := agent(state);
    if result == [] then Err(IndexError)
    else
      Ok(Command(SupervisorName,
                 Update(Absent, Absent, Batch([HumanMessage(Last(result).content, name)]))))
  }

  // ---------------------------------------------------------------------------
  // Python's str.strip()

  /** Python's `str.isspace` on one character: the ASCII controls TAB to CR, the
      separators U+001C to U+001F, space, NEL, NBSP and the Unicode space separators. */
  predicate IsSpace(c: char)
  {
    || ('\t' <= c <= '\r')
    || ('\U{1c}' <= c <= ' ')
    || c == '\U{85}' || c == '\U{a0}' || c == '\U{1680}'
    || ('\U{2000}' <= c <= '\U{200a}')
    || c == '\U{2028}' || c == '\U{2029}' || c == '\U{202f}' || c == '\U{205f}'
    || c == '\U{3000}'
  }

  /** `s` with its leading whitespace removed. */
  function TrimStart(s: string): (r: string)
    ensures |r| <= |s| && r == s[|s| - |r|..]
    ensures forall k :: 0 <= k < |s| - |r| ==> IsSpace(s[k])
    ensures r != [] ==> !IsSpace(r[0])
  {
    if s != [] && IsSpace(s[0]) then TrimStart(s[1..]) else s
  }

  /** `s` with its trailing whitespace removed. */
  function TrimEnd(s: string): (r: string)
    ensures |r| <= |s| && r == s[..|r|]
    ensures forall k :: |r| <= k < |s| ==> IsSpace(s[k])
    ensures r != [] ==> !IsSpace(r[|r| - 1])
  {
    if s != [] && IsSpace(s[|s| - 1]) then TrimEnd(s[..|s| - 1]) else s
  }

  /** Python's `str.strip()`. */
  function Strip(s: string): (r: string)
    ensures |r| <= |s|
  {
    TrimEnd(TrimStart(s))
  }

  /** What `str.strip()` returns: a slice of `s` that neither starts nor ends with
      whitespace, with only whitespace cut off on either side; it is empty exactly when `s`
      is all whitespace. */
  lemma StripIsTrimmedSlice(s: string)
    ensures exists i :: 0 <= i <= |s| - |Strip(s)| && CutsAt(s, i, Strip(s))
    ensures Strip(s) != [] ==> !IsSpace(Strip(s)[0]) && !IsSpace(Strip(s)[|Strip(s)| - 1])
    ensures Strip(s) == [] <==> forall k :: 0 <= k < |s| ==> IsSpace(s[k])
  {
    var t := TrimStart(s);
    var r := TrimEnd(t);
    var i := |s| - |t|;
    assert t == s[i..];
    assert r == t[..|r|];
    assert r == s[i..i + |r|];
    forall k | i + |r| <= k < |s| ensures IsSpace(s[k]) {
      assert s[k] == t[k - i];
    }
    assert CutsAt(s, i, r) && r == Strip(s);
    if r != [] {
      assert s[i] == r[0];
    }
  }

  /** `r` is the slice of `s` that starts at `i`, and all of `s` around it is whitespace. */
  ghost predicate CutsAt(s: string, i: nat, r: string)
    requires i + |r| <= |s|
  {
    && r == s[i..i + |r|]
    && (forall k :: 0 <= k < i ==> IsSpace(s[k]))
    && (forall k :: i + |r| <= k < |s| ==> IsSpace(s[k]))
  }

  /** Stripping twice is stripping once. */
  lemma StripIdempotent(s: string)
    ensures Strip(Strip(s)) == Strip(s)
  {
    var r := Strip(s);
    if r != [] {
      assert TrimStart(r) == r;
      assert TrimEnd(r) == r;
    }
  }

  // ---------------------------------------------------------------------------
  // Team delegation (call_research_team, call_trip_team, call_accomodation_team)

  const ResearchTeamName: string := "research_team"
  const TripTeamName: string := "trip_planner"
  const AccommodationTeamName: string := "accomodation_agent"

  /** The seed of a delegation as the code is written: `state.get("instructions", "")`
      stripped, or the content of the last message when that is empty. When the supervisor
      stored `None` as instructions, `get` returns `None` and `.strip()` raises. */
  function SeedAsWritten(state: State): (r: Result<string, PyError>)
    ensures state.instructions == Null ==> r == Err(AttributeError)
  {
    match state.instructions
    case Null => Err(AttributeError)
    case Absent => FallBack(state, "")
    case Present(s) => FallBack(state, Strip(s))
  }

  /** The seed with the evidently intended reading of the `""` default: instructions that
      are missing, `None` or blank all fall back to the content of the last message. */
  function Seed(state: State): (r: Result<string, PyError>)
    ensures state.instructions.Present? && Strip(state.instructions.value) != "" ==>
              r == Ok(Strip(state.instructions.value))
    ensures !(state.instructions.Present? && Strip(state.instructions.value) != "") ==>
              if state.messages == [] then r == Err(IndexError)
              else r == Ok(Last(state.messages).content)
  {
    match state.instructions
    case Present(s) => FallBack(state, Strip(s))
    case _ => FallBack(state, "")
  }

  /** `content_to_send`, or the last message's content when it is empty. */
  function FallBack(state: State, stripped: string): Result<string, PyError>
  {
    if stripped != "" then Ok(stripped)
    else if state.messages == [] then Err(IndexError)
    else Ok(Last(state.messages).content)
  }

  /** Where the two readings part: they agree on every state whose instructions are not
      `None`, and on a `None` the code as written raises while the intended seed is the last
      message. */
  lemma SeedDiffersOnlyOnNullInstructions(state: State)
    ensures state.instructions != Null ==> SeedAsWritten(state) == Seed(state)
    ensures state.instructions == Null && state.messages != [] ==>
              SeedAsWritten(state) == Err(AttributeError)
              && Seed(state) == Ok(Last(state.messages).content)
  {
  }

  /** A concrete input on which the code as written raises: the root router sends the trip
      team a request with `instructions: None` and an answer for the user; the update is
      applied, and the delegation node then reads the stored `None`. */
  lemma NullInstructionsRaise(prompt: string)
    ensures var start := State([HumanMessage("Un vol pour Austin", "user")], Absent, Absent);
            var router := (_: seq<Message>) => Router(TripTeamName, None, None, Some("Je cherche un vol."));
            var c := SupervisorNode(prompt, router, start);
            && c.goto == TripTeamName
            && Apply(start, c.update).Ok?
            && Apply(start, c.update).value.instructions == Null
            && SeedAsWritten(Apply(start, c.update).value) == Err(AttributeError)
            && Seed(Apply(start, c.update).value) == Ok("Je cherche un vol.")
  {
  }

  /** The state a child team starts from: one message, the seed, attributed to the team. */
  function ChildState(team: string, seed: string): (s: State)
    ensures |s.messages| == 1
    ensures s.messages[0].name == Some(team) && s.messages[0].content == seed
    ensures s.next == Absent && s.instructions == Absent
  {
    State([HumanMessage(seed, team)], Absent, Absent)
  }

  /** A team-bound worker: seed a fresh child state, run the child team to its end, and
      hand back exactly one message, the child's final message re-attributed to the team,
      with control back to the parent's supervisor. Failures of the seed or of the child run
      propagate, and a child that logged nothing makes `[-1]` raise. This is the worker with
      the corrected seed; `DelegateAsWritten` is the one the code writes. */
  function Delegate(team: string, child: State -> Result<seq<Message>, PyError>,
                    state: State): (r: Result<Command, PyError>)
    ensures Seed(state).Err? ==> r == Err(Seed(state).error)
    ensures Seed(state).Ok? && child(ChildState(team, Seed(state).value)).Err? ==>
              r == Err(child(ChildState(team, Seed(state).value)).error)
    ensures Seed(state).Ok? && child(ChildState(team, Seed(state).value)) == Ok([]) ==>
              r == Err(IndexError)
    ensures r.Ok? ==> && Seed(state).Ok?
                      && var log := child(ChildState(team, Seed(state).value));
                      && log.Ok? && log.value != []
                      && r.value.goto == SupervisorName
                      && r.value.update.next == Absent
                      && r.value.update.instructions == Absent
                      && r.value.update.messages == Batch([HumanMessage(Last(log.value).content, team)])
    ensures Seed(state).Ok? ==>
              var log := child(ChildState(team, Seed(state).value));
              r.Ok? <==> log.Ok? && log.value != []
  {
    Handoff(team, child, Seed(state))
  }

  /** The delegation worker as the code writes it, seeded by `SeedAsWritten`: it agrees with
      `Delegate` unless the stored instructions are `None`, where it raises AttributeError
      before the child runs. */
  function DelegateAsWritten(team: string, child: State -> Result<seq<Message>, PyError>,
                             state: State): (r: Result<Command, PyError>)
    ensures state.instructions != Null ==> r == Delegate(team, child, state)
    ensures state.instructions == Null ==> r == Err(AttributeError)
  {
    SeedDiffersOnlyOnNullInstructions(state);
    Handoff(team, child, SeedAsWritten(state))
  }

  /** The body shared by both readings, once the seed is computed. */
  function Handoff(team: string, child: State -> Result<seq<Message>, PyError>,
                   seed: Result<string, PyError>): Result<Command, PyError>
  {
    match seed
    case Err(e) => Err(e)
    case Ok(text) =>
      match child(ChildState(team, text))
      case Err(e) => Err(e)
      case Ok(log) =>
        if log == [] then Err(IndexError)
        else
          Ok(Command(SupervisorName,
                     Update(Absent, Absent, Batch([HumanMessage(Last(log).content, team)]))))
  }

  /** Only the child's final message crosses the boundary: two child runs that end on the
      same content give the parent the same command, however much else they logged. */
  lemma DelegationSeesOnlyTheLastChildMessage(team: string,
                                              c1: State -> Result<seq<Message>, PyError>,
                                              c2: State -> Result<seq<Message>, PyError>,
                                              state: State)
    requires Seed(state).Ok?
    requires var s := ChildState(team, Seed(state).value);
             c1(s).Ok? && c2(s).Ok? && c1(s).value != [] && c2(s).value != []
             && Last(c1(s).value).content == Last(c2(s).value).content
    ensures Delegate(team, c1, state) == Delegate(team, c2, state)
  {
  }

  // ---------------------------------------------------------------------------
  // Graphs and the explicit runner

  /** A compiled team: the supervisor's prompt and router, and the worker nodes by name.
      Every graph of the agency declares exactly one edge, START to the supervisor. */
  datatype Team = Team(prompt: string, router: seq<Message> -> Router,
                       workers: map<string, State -> Result<Command, PyError>>)

  /** The research team: a search worker and a weather worker. */
  function ResearchTeam(prompt: string, router: seq<Message> -> Router,
                        searchAgent: State -> seq<Message>,
                        meteoAgent: State -> seq<Message>): (t: Team)
    ensures t.workers.Keys == {SearchName, MeteoName}
    ensures forall s :: t.workers[SearchName](s) == CapabilityWorker(SearchName, searchAgent, s)
    ensures forall s :: t.workers[MeteoName](s) == CapabilityWorker(MeteoName, meteoAgent, s)
  {
    Team(prompt, router,
         map[SearchName := s => CapabilityWorker(SearchName, searchAgent, s),
             MeteoName := s => CapabilityWorker(MeteoName, meteoAgent, s)])
  }

  /** The trip team: one flight worker. */
  function TripTeam(prompt: string, router: seq<Message> -> Router,
                    flightAgent: State -> seq<Message>): (t: Team)
    ensures t.workers.Keys == {FlightName}
    ensures forall s :: t.workers[FlightName](s) == CapabilityWorker(FlightName, flightAgent, s)
  {
    Team(prompt, router, map[FlightName := s => CapabilityWorker(FlightName, flightAgent, s)])
  }

  /** The accommodation team: one hotel worker. */
  function AccommodationTeam(prompt: string, router: seq<Message> -> Router,
                             hotelAgent: State -> seq<Message>): (t: Team)
    ensures t.workers.Keys == {HotelName}
    ensures forall s :: t.workers[HotelName](s) == CapabilityWorker(HotelName, hotelAgent, s)
  {
    Team(prompt, router, map[HotelName := s => CapabilityWorker(HotelName, hotelAgent, s)])
  }

  /** The root team: its three workers delegate to the child teams' runs. */
  function RootTeam(prompt: string, router: seq<Message> -> Router,
                    research: State -> Result<seq<Message>, PyError>,
                    trip: State -> Result<seq<Message>, PyError>,
                    accommodation: State -> Result<seq<Message>, PyError>): (t: Team)
    ensures t.workers.Keys == {ResearchTeamName, TripTeamName, AccommodationTeamName}
    ensures forall s :: t.workers[ResearchTeamName](s) == Delegate(ResearchTeamName, research, s)
    ensures forall s :: t.workers[TripTeamName](s) == Delegate(TripTeamName, trip, s)
    ensures forall s :: t.workers[AccommodationTeamName](s) == Delegate(AccommodationTeamName, accommodation, s)
  {
    Team(prompt, router,
         map[ResearchTeamName := s => Delegate(ResearchTeamName, research, s),
             TripTeamName := s => Delegate(TripTeamName, trip, s),
             AccommodationTeamName := s => Delegate(AccommodationTeamName, accommodation, s)])
  }

  /** Every worker of the team that returns a command sends control to the supervisor. */
  ghost predicate WorkersReturnToSupervisor(t: Team)
  {
    forall n, s :: n in t.workers && t.workers[n](s).Ok? ==>
      t.workers[n](s).value.goto == SupervisorName
  }

  /** The four graphs of the agency have star topology: no worker routes anywhere but to
      its supervisor. */
  lemma AgencyTeamsAreStars(prompt: string, router: seq<Message> -> Router,
                            a1: State -> seq<Message>, a2: State -> seq<Message>,
                            c1: State -> Result<seq<Message>, PyError>,
                            c2: State -> Result<seq<Message>, PyError>,
                            c3: State -> Result<seq<Message>, PyError>)
    ensures WorkersReturnToSupervisor(ResearchTeam(prompt, router, a1, a2))
    ensures WorkersReturnToSupervisor(TripTeam(prompt, router, a1))
    ensures WorkersReturnToSupervisor(AccommodationTeam(prompt, router, a1))
    ensures WorkersReturnToSupervisor(RootTeam(prompt, router, c1, c2, c3))
  {
  }

  /** How a run ended: the supervisor finished, the step counter ran out, a node raised, or
      a command named a node the graph does not declare. */
  datatype Stop = Finished | StepLimit | Raised(error: PyError) | UndeclaredNode(node: string)

  /** A run: how it ended, the final state, and every node's update in order (what the
      runtime streams). */
  datatype Run = Run(stop: Stop, state: State, steps: seq<(string, Update)>)

  /** The messages an update appends to the log: a worker's list, or the supervisor's answer
      as one unattributed message. A supervisor update without an answer appends nothing
      here, but `Apply` refuses it before it reaches the log. */
  function Appended(p: Payload): seq<Message>
  {
    match p
    case Batch(b) => b
    case Answer(None) => []
    case Answer(Some(a)) => [Message(Human, None, a)]
  }

  /** Applies an update to a state with the `messages` reducer of `MessagesState`: the log
      only grows, and `next` and `instructions` are overwritten when the update writes them.
      The reducer cannot turn `None` into a message, so a supervisor update whose answer is
      `None` raises. */
  function Apply(s: State, u: Update): (r: Result<State, PyError>)
    ensures r.Err? <==> u.messages == Answer(None)
    ensures r.Err? ==> r.error == ValueError
    ensures r.Ok? ==> && r.value.messages == s.messages + Appended(u.messages)
                      && |Appended(u.messages)| == (if u.messages.Batch? then |u.messages.batch| else 1)
                      && r.value.next == (if u.next == Absent then s.next else u.next)
                      && r.value.instructions == (if u.instructions == Absent then s.instructions else u.instructions)
  {
    if u.messages == Answer(None) then Err(ValueError)
    else
      Ok(State(s.messages + Appended(u.messages),
               if u.next == Absent then s.next else u.next,
               if u.instructions == Absent then s.instructions else u.instructions))
  }

  /** The command of one node of the team, when the node exists. */
  function NodeCommand(t: Team, node: string, s: State): Result<Command, PyError>
    requires node == SupervisorName || node in t.workers
  {
    if node == SupervisorName then Ok(SupervisorNode(t.prompt, t.router, s))
    else t.workers[node](s)
  }

  /** Runs the team from `node` for at most `fuel` node executions. */
  function RunFrom(t: Team, node: string, s: State, fuel: nat): Run
    decreases fuel
  {
    if node == End then Run(Finished, s, [])
    else if fuel == 0 then Run(StepLimit, s, [])
    else if node != SupervisorName && node !in t.workers then Run(UndeclaredNode(node), s, [])
    else
      match NodeCommand(t, node, s)
      case Err(e) => Run(Raised(e), s, [])
      case Ok(c) =>
        match Apply(s, c.update)
        case Err(e) => Run(Raised(e), s, [])
        case Ok(s') =>
          var rest := RunFrom(t, c.goto, s', fuel - 1);
          Run(rest.stop, rest.state, [(node, c.update)] + rest.steps)
  }

  /** A supervisor that routes without an answer for the user ends the run with the
      reducer's exception, before the node it named runs. */
  lemma SilentSupervisorRaises(t: Team, s: State, fuel: nat)
    requires fuel > 0
    requires t.router(RouterInput(t.prompt, s)).answer.None?
    ensures RunFrom(t, SupervisorName, s, fuel) == Run(Raised(ValueError), s, [])
  {
  }

  /** `graph.invoke(input)`: the only declared edge leads from START to the supervisor. */
  function Invoke(t: Team, input: State, limit: nat): Run
  {
    RunFrom(t, SupervisorName, input, limit)
  }

  /** The step counter is a ceiling: a run executes at most `fuel` nodes. */
  lemma {:induction false} RunIsBounded(t: Team, node: string, s: State, fuel: nat)
    ensures |RunFrom(t, node, s, fuel).steps| <= fuel
    ensures RunFrom(t, node, s, fuel).stop == StepLimit ==> fuel == 0 || |RunFrom(t, node, s, fuel).steps| > 0
    decreases fuel
  {
    if node != End && fuel > 0 && (node == SupervisorName || node in t.workers)
       && NodeCommand(t, node, s).Ok? && Apply(s, NodeCommand(t, node, s).value.update).Ok? {
      var c := NodeCommand(t, node, s).value;
      RunIsBounded(t, c.goto, Apply(s, c.update).value, fuel - 1);
    }
  }

  /** The log is append-only over a whole run: the final log is the starting log followed
      by what the streamed updates append, in order. */
  lemma {:induction false} RunOnlyAppends(t: Team, node: string, s: State, fuel: nat)
    ensures RunFrom(t, node, s, fuel).state.messages == s.messages + AllAppended(RunFrom(t, node, s, fuel).steps)
    decreases fuel
  {
    if node != End && fuel > 0 && (node == SupervisorName || node in t.workers)
       && NodeCommand(t, node, s).Ok? && Apply(s, NodeCommand(t, node, s).value.update).Ok? {
      var c := NodeCommand(t, node, s).value;
      var s' := Apply(s, c.update).value;
      RunOnlyAppends(t, c.goto, s', fuel - 1);
      var rest := RunFrom(t, c.goto, s', fuel - 1);
      var steps := [(node, c.update)] + rest.steps;
      assert RunFrom(t, node, s, fuel) == Run(rest.stop, rest.state, steps);
      assert steps[1..] == rest.steps;
      assert AllAppended(steps) == Appended(c.update.messages) + AllAppended(rest.steps);
      assert s'.messages == s.messages + Appended(c.update.messages);
    }
  }

  /** The messages a sequence of updates appends, in order. */
  function AllAppended(steps: seq<(string, Update)>): seq<Message>
  {
    if steps == [] then [] else Appended(steps[0].1.messages) + AllAppended(steps[1..])
  }

  /** The shape of a star run: it starts at the supervisor, no worker follows a worker,
      and every worker that runs was the `next` the supervisor just wrote. */
  ghost predicate StarSteps(steps: seq<(string, Update)>)
  {
    && (steps != [] ==> steps[0].0 == SupervisorName)
    && (forall i :: 0 < i < |steps| && steps[i].0 != SupervisorName ==>
          steps[i - 1].0 == SupervisorName && steps[i - 1].1.next == Present(steps[i].0))
  }

  /** Every run of a team whose workers return to the supervisor has star shape, and it can
      only finish right after a supervisor step. */
  lemma {:induction false} RunIsStar(t: Team, s: State, fuel: nat)
    requires WorkersReturnToSupervisor(t)
    ensures var r := RunFrom(t, SupervisorName, s, fuel);
            StarSteps(r.steps) && (r.stop == Finished ==> r.steps != [] && Last(r.steps).0 == SupervisorName)
  {
    StarFrom(t, SupervisorName, s, fuel);
  }

  lemma {:induction false} StarFrom(t: Team, node: string, s: State, fuel: nat)
    requires WorkersReturnToSupervisor(t)
    requires node != End
    ensures var r := RunFrom(t, node, s, fuel);
            && (r.steps != [] ==> r.steps[0].0 == node)
            && (forall i :: 0 < i < |r.steps| && r.steps[i].0 != SupervisorName ==>
                  r.steps[i - 1].0 == SupervisorName && r.steps[i - 1].1.next == Present(r.steps[i].0))
            && (r.stop == Finished ==> r.steps != [] && Last(r.steps).0 == SupervisorName)
    decreases fuel
  {
    if fuel > 0 && (node == SupervisorName || node in t.workers) && NodeCommand(t, node, s).Ok?
       && Apply(s, NodeCommand(t, node, s).value.update).Ok? {
      var c := NodeCommand(t, node, s).value;
      var s' := Apply(s, c.update).value;
      var rest := RunFrom(t, c.goto, s', fuel - 1);
      var steps := [(node, c.update)] + rest.steps;
      assert RunFrom(t, node, s, fuel).steps == steps;
      if node != SupervisorName {
        assert c.goto == SupervisorName;
      }
      if c.goto != End {
        StarFrom(t, c.goto, s', fuel - 1);
        forall i | 0 < i < |steps| && steps[i].0 != SupervisorName
          ensures steps[i - 1].0 == SupervisorName && steps[i - 1].1.next == Present(steps[i].0)
        {
          if i == 1 {
            assert node == SupervisorName;
            assert c.update.next == Present(c.goto);
          } else {
            assert steps[i] == rest.steps[i - 1] && steps[i - 1] == rest.steps[i - 2];
          }
        }
      } else {
        assert node == SupervisorName;
        assert rest.steps == [];
      }
    }
  }

  /** `graph.invoke(state)` of a child team as its delegating worker sees it: the final log
      when the child's supervisor finished, the exception otherwise. */
  function ChildRun(t: Team, limit: nat, input: State): Result<seq<Message>, PyError>
  {
    var r := Invoke(t, input, limit);
    match r.stop
    case Finished => Ok(r.state.messages)
    case Raised(e) => Err(e)
    case _ => Err(GraphError)
  }

  /** Hierarchical composition: delegating to a child team that finishes adds exactly one
      message to the parent, the child's final message under the team's name, however many
      steps the child took; the child's own traffic stays behind. */
  lemma DelegationToFinishedChild(team: string, child: Team, limit: nat, state: State)
    requires Seed(state).Ok?
    requires Invoke(child, ChildState(team, Seed(state).value), limit).stop == Finished
    ensures var final := Invoke(child, ChildState(team, Seed(state).value), limit).state.messages;
            && final != []
            && Delegate(team, s => ChildRun(child, limit, s), state)
               == Ok(Command(SupervisorName,
                             Update(Absent, Absent, Batch([HumanMessage(Last(final).content, team)]))))
  {
    var start := ChildState(team, Seed(state).value);
    RunOnlyAppends(child, SupervisorName, start, limit);
    var final := Invoke(child, start, limit).state.messages;
    assert |final| >= |start.messages| == 1;
  }
}

/** The console driver of the agency (first_tests/francis_agency.py, the loop at the end of
    the file): it reads one input per turn, appends it to the session log, runs the root
    graph and folds every streamed node update into the session log.

    Reading the console and running the graph are parameters: a turn is given its input
    string, and `graph` maps the session log the graph is started on to the chunks it
    streams (each chunk maps node names to their updates, in dictionary order). Printing is
    left out, but the dictionary look-ups done only to print can raise `KeyError`, and that
    ends the turn, so they are kept. */
module Driver {
  import opened Wrappers
  import opened Agency

  const UserName: string := "user"

  /** The nodes of the root graph the console has an emoji for; looking up any other name
      (the end sentinel included) raises `KeyError`. */
  const EmojiNodes: set<string> := {SupervisorName, ResearchTeamName, TripTeamName, AccommodationTeamName}

  /** One streamed chunk: the updates of the nodes that ran, by node name. */
  type Output = seq<(string, Update)>

  /** ASCII lower-casing. No other character lower-cases to one of the letters of "exit". */
  function ToLower(c: char): char
  {
    if 'A' <= c <= 'Z' then (c as int + 32) as char else c
  }

  /** `input.lower() == "exit"`. */
  predicate IsExit(input: string)
  {
    |input| == 4 && forall k :: 0 <= k < 4 ==> ToLower(input[k]) == "exit"[k]
  }

  /** The session log after folding some updates, and whether an exception ended the turn. */
  datatype Folded = Folded(messages: seq<Message>, aborted: bool)

  /** Python's `len` of an update's `messages` value is positive (`len(None)` raises and is
      handled apart). */
  predicate NonEmpty(p: Payload)
  {
    match p
    case Batch(b) => |b| > 0
    case Answer(a) => a.Some? && |a.value| > 0
  }

  /** The body of the inner `for` loop on one node's update. A non-empty list contributes its
      last element; a non-empty string is wrapped as a message from the node; an empty
      one contributes nothing. `len(None)` on the messages or the instructions and the emoji
      look-ups raise, which ends the turn; what was appended before stays. */
  function Absorb(log: seq<Message>, node: string, u: Update): (f: Folded)
    ensures |log| <= |f.messages| <= |log| + 1 && f.messages[..|log|] == log
    ensures |f.messages| == |log| + 1 <==>
              NonEmpty(u.messages) && node in EmojiNodes
    ensures |f.messages| == |log| + 1 && u.messages.Batch? ==>
              f.messages[|log|] == Last(u.messages.batch)
    ensures |f.messages| == |log| + 1 && u.messages.Answer? ==>
              f.messages[|log|] == HumanMessage(u.messages.answer.value, node)
    ensures u.messages == Answer(None) ==> f == Folded(log, true)
    ensures f.aborted <==>
              || u.messages == Answer(None)
              || (NonEmpty(u.messages) && node !in EmojiNodes)
              || u.instructions == Null
              || (u.instructions.Present? && |u.instructions.value| > 0
                  && (node !in EmojiNodes || !(u.next.Present? && u.next.value in EmojiNodes)))
  {
    if u.messages == Answer(None) then Folded(log, true)
    else if NonEmpty(u.messages) && node !in EmojiNodes then Folded(log, true)
    else
      var log' := if !NonEmpty(u.messages) then log
                  else if u.messages.Batch? then log + [Last(u.messages.batch)]
                  else log + [HumanMessage(u.messages.answer.value, node)];
      match u.instructions
      case Absent => Folded(log', false)
      case Null => Folded(log', true)
      case Present(s) =>
        Folded(log', |s| > 0 && (node !in EmojiNodes || !(u.next.Present? && u.next.value in EmojiNodes)))
  }

  /** Folds node updates into the log in order until one raises. */
  function FoldEntries(log: seq<Message>, entries: seq<(string, Update)>): (f: Folded)
    ensures |log| <= |f.messages| <= |log| + |entries|
    ensures f.messages[..|log|] == log
    decreases entries
  {
    if entries == [] then Folded(log, false)
    else
      var g := Absorb(log, entries[0].0, entries[0].1);
      if g.aborted then g else FoldEntries(g.messages, entries[1..])
  }

  /** Folding two stretches of updates is folding the first, then, unless it raised, the
      second. */
  lemma {:induction false} FoldSplits(log: seq<Message>, a: seq<(string, Update)>, b: seq<(string, Update)>)
    ensures FoldEntries(log, a + b) ==
              var f := FoldEntries(log, a); if f.aborted then f else FoldEntries(f.messages, b)
    decreases |a|
  {
    if a == [] {
      assert a + b == b;
    } else {
      assert (a + b)[0] == a[0] && (a + b)[1..] == a[1..] + b;
      var g := Absorb(log, a[0].0, a[0].1);
      if !g.aborted {
        FoldSplits(g.messages, a[1..], b);
      }
    }
  }

  /** All updates of a stream, chunk after chunk. */
  function Flatten(stream: seq<Output>): (entries: seq<(string, Update)>)
    ensures |entries| == SumOfSizes(stream)
  {
    if stream == [] then [] else Flatten(stream[..|stream| - 1]) + stream[|stream| - 1]
  }

  /** The number of node updates in a stream. */
  function SumOfSizes(stream: seq<Output>): nat
  {
    if stream == [] then 0 else SumOfSizes(stream[..|stream| - 1]) + |stream[|stream| - 1]|
  }

  /** The log a turn starts the graph on: the session log and the user's input. */
  function Seeded(log: seq<Message>, input: string): seq<Message>
  {
    log + [HumanMessage(input, UserName)]
  }

  datatype TurnStatus = Exit | Skipped | Ran | Aborted

  /** The session log after one turn. */
  function AfterTurn(log: seq<Message>, input: string, graph: seq<Message> -> seq<Output>): seq<Message>
  {
    if IsExit(input) || input == "" then log
    else FoldEntries(Seeded(log, input), Flatten(graph(Seeded(log, input)))).messages
  }

  /** An exit ends the session; an empty input adds nothing; any other input adds exactly one
      user message before the graph runs, and then at most one message per streamed update,
      each either the last element of a node's list or a node's non-empty answer. */
  lemma TurnShape(log: seq<Message>, input: string, graph: seq<Message> -> seq<Output>)
    ensures IsExit(input) || input == "" ==> AfterTurn(log, input, graph) == log
    ensures !IsExit(input) && input != "" ==>
              var after := AfterTurn(log, input, graph);
              && |log| + 1 <= |after| <= |log| + 1 + SumOfSizes(graph(Seeded(log, input)))
              && after[..|log| + 1] == log + [HumanMessage(input, UserName)]
  {
    if !IsExit(input) && input != "" {
      var seeded := Seeded(log, input);
      var after := AfterTurn(log, input, graph);
      assert after[..|seeded|] == seeded;
    }
  }

  /** The session as a sequence of turns: how many inputs were read, and the log after
      them. Reading stops right after an exit. */
  function Conversation(log: seq<Message>, inputs: seq<string>,
                        graph: seq<Message> -> seq<Output>): (r: (nat, seq<Message>))
    ensures r.0 <= |inputs|
    ensures r.0 == |inputs| || (r.0 > 0 && IsExit(inputs[r.0 - 1]))
    decreases inputs
  {
    if inputs == [] then (0, log)
    else if IsExit(inputs[0]) then (1, log)
    else
      var rest := Conversation(AfterTurn(log, inputs[0], graph), inputs[1..], graph);
      (rest.0 + 1, rest.1)
  }

  /** Every input read before the last one read was an ordinary turn, not an exit. */
  lemma {:induction false} NoExitBeforeTheLastRead(log: seq<Message>, inputs: seq<string>,
                                                   graph: seq<Message> -> seq<Output>, k: nat)
    requires k + 1 < Conversation(log, inputs, graph).0
    ensures !IsExit(inputs[k])
    decreases inputs
  {
    if k > 0 {
      NoExitBeforeTheLastRead(AfterTurn(log, inputs[0], graph), inputs[1..], graph, k - 1);
    }
  }

  /** An exit in any letter case ends the conversation: nothing typed after it is read or
      changes the log. */
  lemma {:induction false} ExitEndsConversation(log: seq<Message>, inputs: seq<string>,
                                                later: seq<string>,
                                                graph: seq<Message> -> seq<Output>)
    requires inputs != [] && IsExit(Last(inputs))
    ensures Conversation(log, inputs + later, graph) == Conversation(log, inputs, graph)
    decreases inputs
  {
    assert (inputs + later)[0] == inputs[0];
    if !IsExit(inputs[0]) {
      assert (inputs + later)[1..] == inputs[1..] + later;
      ExitEndsConversation(AfterTurn(log, inputs[0], graph), inputs[1..], later, graph);
    }
  }

  /** The session log only grows over a conversation. */
  lemma {:induction false} ConversationOnlyAppends(log: seq<Message>, inputs: seq<string>,
                                                   graph: seq<Message> -> seq<Output>)
    ensures var r := Conversation(log, inputs, graph);
            |log| <= |r.1| && r.1[..|log|] == log
    decreases inputs
  {
    if inputs != [] && !IsExit(inputs[0]) {
      var next := AfterTurn(log, inputs[0], graph);
      TurnShape(log, inputs[0], graph);
      ConversationOnlyAppends(next, inputs[1..], graph);
      var r := Conversation(next, inputs[1..], graph);
      assert r.1[..|log|] == r.1[..|next|][..|log|];
    }
  }

  /** The session state of the console: its message log, appended to in place. */
  class Session {
    var messages: seq<Message>

    constructor ()
      ensures messages == []
    {
      messages := [];
    }

    /** One iteration of the console loop. */
    method Turn(input: string, graph: seq<Message> -> seq<Output>) returns (status: TurnStatus)
      modifies this
      ensures messages == AfterTurn(old(messages), input, graph)
      ensures status == Exit <==> IsExit(input)
      ensures status == Skipped <==> !IsExit(input) && input == ""
      ensures status == Aborted <==>
                !IsExit(input) && input != ""
                && FoldEntries(Seeded(old(messages), input), Flatten(graph(Seeded(old(messages), input)))).aborted
    {
      if IsExit(input) {
        return Exit;
      }
      if input == "" {
        return Skipped;
      }
      messages := messages + [HumanMessage(input, UserName)];
      ghost var seeded := messages;
      var stream := graph(messages);
      var i := 0;
      while i < |stream|
        invariant 0 <= i <= |stream|
        invariant FoldEntries(seeded, Flatten(stream[..i])) == Folded(messages, false)
      {
        var output := stream[i];
        var j := 0;
        assert Flatten(stream[..i]) + output[..j] == Flatten(stream[..i]);
        while j < |output|
          invariant 0 <= j <= |output|
          invariant FoldEntries(seeded, Flatten(stream[..i]) + output[..j]) == Folded(messages, false)
        {
          var node := output[j].0;
          var u := output[j].1;
          var raised := AbsorbUpdate(node, u);
          FoldSplits(seeded, Flatten(stream[..i]) + output[..j], [output[j]]);
          assert output[..j + 1] == output[..j] + [output[j]];
          assert Flatten(stream[..i]) + output[..j + 1] == Flatten(stream[..i]) + output[..j] + [output[j]];
          if raised {
            StreamAbortsAt(seeded, stream, i, j);
            return Aborted;
          }
          j := j + 1;
        }
        assert output[..j] == output;
        assert stream[..i + 1][..i] == stream[..i];
        i := i + 1;
      }
      assert stream[..i] == stream;
      status := Ran;
    }

    /** The body of the inner `for` loop: appends what one node's update contributes and
        reports whether a look-up raised. */
    method AbsorbUpdate(node: string, u: Update) returns (raised: bool)
      modifies this
      ensures Folded(messages, raised) == Absorb(old(messages), node, u)
    {
      raised := false;
      match u.messages {
        case Answer(None) =>
          raised := true;
        case Answer(Some(a)) =>
          if |a| > 0 {
            if node !in EmojiNodes {
              raised := true;
            } else {
              messages := messages + [HumanMessage(a, node)];
            }
          }
        case Batch(b) =>
          if |b| > 0 {
            if node !in EmojiNodes {
              raised := true;
            } else {
              messages := messages + [b[|b| - 1]];
            }
          }
      }
      if !raised {
        match u.instructions {
          case Absent =>
          case Null =>
            raised := true;
          case Present(s) =>
            if |s| > 0 && (node !in EmojiNodes || !(u.next.Present? && u.next.value in EmojiNodes)) {
              raised := true;
            }
        }
      }
    }

    /** The console loop over a finite sequence of inputs: it stops right after an exit. */
    method Converse(inputs: seq<string>, graph: seq<Message> -> seq<Output>) returns (consumed: nat)
      modifies this
      ensures (consumed, messages) == Conversation(old(messages), inputs, graph)
    {
      var i := 0;
      while i < |inputs|
        invariant 0 <= i <= |inputs|
        invariant var r := Conversation(messages, inputs[i..], graph);
                  Conversation(old(messages), inputs, graph) == (i + r.0, r.1)
      {
        var status := Turn(inputs[i], graph);
        assert inputs[i..][1..] == inputs[i + 1..];
        if status == Exit {
          return i + 1;
        }
        i := i + 1;
      }
      consumed := i;
    }
  }

  /** Once an update raised at chunk `i`, entry `j`, the rest of the stream is not folded. */
  lemma StreamAbortsAt(seeded: seq<Message>, stream: seq<Output>, i: nat, j: nat)
    requires i < |stream| && j < |stream[i]|
    requires FoldEntries(seeded, Flatten(stream[..i]) + stream[i][..j + 1]).aborted
    ensures FoldEntries(seeded, Flatten(stream)) == FoldEntries(seeded, Flatten(stream[..i]) + stream[i][..j + 1])
  {
    var head := Flatten(stream[..i]) + stream[i][..j + 1];
    var tail := stream[i][j + 1..] + Flatten(stream[i + 1..]);
    FlattenSplits(stream, i);
    assert stream[i] == stream[i][..j + 1] + stream[i][j + 1..];
    assert Flatten(stream) == head + tail;
    FoldSplits(seeded, head, tail);
  }

  /** A stream flattens to the chunks before `i`, chunk `i`, and the chunks after it. */
  lemma {:induction false} FlattenSplits(stream: seq<Output>, i: nat)
    requires i < |stream|
    ensures Flatten(stream) == Flatten(stream[..i]) + stream[i] + Flatten(stream[i + 1..])
    decreases |stream|
  {
    var n := |stream|;
    if i == n - 1 {
      assert stream[..n - 1] == stream[..i];
      assert stream[i + 1..] == [];
    } else {
      FlattenSplits(stream[..n - 1], i);
      assert stream[..n - 1][..i] == stream[..i];
      assert stream[..n - 1][i + 1..] == stream[i + 1..n - 1];
      assert stream[i + 1..][..|stream[i + 1..]| - 1] == stream[i + 1..n - 1];
      assert stream[i + 1..][|stream[i + 1..]| - 1] == stream[n - 1];
    }
  }
}

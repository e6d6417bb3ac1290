/** The stand-in back end of the web front end: a canned reply chosen by the length of
    the user's input (test_front_back/backend.py). The three-second sleep is left out. */
module Backend {

  const Greeting: string := "Bonjour ! Comment puis-je vous aider aujourd'hui ?"

  /** The four canned replies, in the order the back end lists them. */
  const DummyResponses: seq<string> := [
    Greeting,
    "Je cherche des informations, un instant...",
    "Voici ce que j'ai trouvé : ...",
    "Je n'ai pas bien compris, pouvez-vous reformuler ?"
  ]

  /** The reply to one user input: entry `len(input) mod 4` of the canned list
      (Python's `len` counts code points, as `|s|` does on a Dafny string). */
  function ProcessUserInput(userInput: string): (reply: string)
    ensures reply in DummyResponses
    ensures exists k :: 0 <= k < |DummyResponses| && reply == DummyResponses[k]
                        && (|userInput| - k) % 4 == 0
  {
    DummyResponses[|userInput| % |DummyResponses|]
  }

  /** The reply depends on nothing but the length of the input. */
  lemma ReplyDependsOnlyOnLength(a: string, b: string)
    requires |a| == |b|
    ensures ProcessUserInput(a) == ProcessUserInput(b)
  {
  }

  /** Inputs whose lengths differ by a multiple of four get the same reply. */
  lemma ReplyHasPeriodFour(a: string, b: string, k: nat)
    requires |a| == |b| + 4 * k
    ensures ProcessUserInput(a) == ProcessUserInput(b)
  {
  }

  /** The empty input is greeted. */
  lemma EmptyInputIsGreeted()
    ensures ProcessUserInput("") == Greeting
  {
  }
}

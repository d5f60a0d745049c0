/** The exit test at the top of both `rag` functions and the
    `while await rag(agent)` loop of `main`. */
module Session {
  import opened Text
  import opened Values

  /** `question.lower() in ['exit', 'quit']` on the stripped input line. */
  predicate IsExitCommand(question: string)
  {
    Lower(question) == "exit" || Lower(question) == "quit"
  }

  /** The test ignores case: under the ASCII case mapping, upper-casing the
      question never changes it. */
  lemma {:induction false} ExitIgnoresCase(question: string)
    ensures IsExitCommand(Upper(question)) <==> IsExitCommand(question)
  {
    UpperChars(question);
    LowerChars(question);
    LowerChars(Upper(question));
    assert Lower(Upper(question)) == Lower(question);
  }

  /** `while await rag(agent): continue`, fed from a list of input lines:
      it runs one turn per line and stops after the first turn that quits. */
  method RunSession(turn: string -> TurnOutcome, lines: seq<string>) returns (outcomes: seq<TurnOutcome>)
    ensures |outcomes| <= |lines|
    ensures forall i :: 0 <= i < |outcomes| ==> outcomes[i] == turn(lines[i])
    ensures forall i :: 0 <= i < |outcomes| - 1 ==> !outcomes[i].Quit?
    ensures |outcomes| < |lines| ==> outcomes != [] && outcomes[|outcomes| - 1].Quit?
  {
    outcomes := [];
    var i := 0;
    while i < |lines|
      invariant i == |outcomes| <= |lines|
      invariant forall k :: 0 <= k < i ==> outcomes[k] == turn(lines[k]) && !outcomes[k].Quit?
    {
      var o := turn(lines[i]);
      outcomes := outcomes + [o];
      if o.Quit? {
        return;
      }
      i := i + 1;
    }
  }
}

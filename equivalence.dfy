/** The two programs emit the same motion trace for every input: their
    tables agree (the float timings are whole numbers, so the casts are
    exact), Vote applied to the table entries of a digit is move_digit, and
    each named gesture is step for step the other file's. */
module Equivalence {
  import opened Arm
  import Niryo
  import Advanced

  /** The angle tables are equal, and the float timing tables cast to int
      are niryo_controller.c's int tables. */
  lemma TablesAgree()
    ensures Advanced.NumJ3 == Niryo.NumJ3 && Advanced.NumJ2 == Niryo.NumJ2
    ensures Advanced.NumJ1 == Niryo.NumJ1 && Advanced.BackJ2 == Niryo.BackJ2
    ensures forall d :: 0 <= d <= 9 ==>
      Advanced.Truncate(Advanced.T1[d]) == Niryo.T1[d] && Advanced.Truncate(Advanced.T2[d]) == Niryo.T2[d] &&
      Advanced.Truncate(Advanced.T3[d]) == Niryo.T3[d] && Advanced.Truncate(Advanced.T4[d]) == Niryo.T4[d]
  {
  }

  /** The Vote call of niryo_advanced_controller.c for a digit emits what
      move_digit emits for it. */
  lemma VoteIsMoveDigit(d: int)
    requires 0 <= d <= 9
    ensures Advanced.DigitSteps(d) == Niryo.Press(d)
  {
    TablesAgree();
  }

  /** DefinedPoint, ConfirmVote and InitialPosition are move_to_reference_point,
      confirm_vote and move_to_home_position. */
  lemma GesturesAgree()
    ensures Advanced.DefinedPointSteps == Niryo.Reference
    ensures Advanced.ConfirmVoteSteps == Niryo.Confirm
    ensures Advanced.InitialPositionSteps == Niryo.Home
  {
  }

  /** The "central point" block of niryo_advanced_controller.c is the
      "initial position" block of niryo_controller.c. */
  lemma CentralPointIsSetup()
    ensures Advanced.CentralPointSteps == Niryo.Setup
  {
  }

  lemma {:induction false} CharsTraceAgree(s: string)
    ensures Advanced.CharsTrace(s) == Niryo.CharsTrace(s)
  {
    if s != [] {
      CharsTraceAgree(s[..|s| - 1]);
      match DigitOf(s[|s| - 1])
      case None =>
      case Some(d) =>
        VoteIsMoveDigit(d);
    }
  }

  lemma {:induction false} SequencesTraceAgree(ts: seq<string>)
    ensures Advanced.SequencesTrace(ts) == Niryo.TokensTrace(ts)
  {
    if ts != [] {
      SequencesTraceAgree(ts[..|ts| - 1]);
      CharsTraceAgree(CString(ts[|ts| - 1]));
    }
  }

  /** For every token list the two programs' whole-run traces are equal. */
  lemma SameTrace(ts: seq<string>)
    ensures Advanced.Trace(ts) == Niryo.Trace(ts)
  {
    SequencesTraceAgree(ts);
  }

  /** Both mains run on the same input, each against its own simulator
      session, command the same steps. */
  method RunBoth(tokens: seq<string>) returns (basic: seq<Step>, alternative: seq<Step>)
    requires FitsBuffer(tokens)
    ensures basic == Niryo.Trace(tokens)
    ensures alternative == basic
  {
    var c := new Niryo.Controller();
    c.Run(tokens);
    basic := c.log;
    var a := new Advanced.Controller();
    a.Run(tokens);
    alternative := a.log;
    SameTrace(tokens);
  }
}

/** niryo_controller.c: the calibration tables, the four gesture functions, the
    setup commands and the token/digit loop of `main`, as the trace of motion
    steps they emit. The pure functions below define that trace; the class
    `Controller` follows the C code statement by statement and is proved to
    emit exactly it. */
module Niryo {
  import opened Arm

  // Calibration tables of move_digit, indexed by digit (niryo_controller.c:41-50).
  const NumJ3: seq<Angle> := [PiTimes(-1.0 / 35.0), PiTimes(1.0 / 45.0), PiTimes(1.0 / 20.0), PiTimes(1.0 / 20.0),
    PiTimes(1.0 / 150.0), PiTimes(1.0 / 45.0), PiTimes(1.0 / 30.0), PiTimes(-1.0 / 55.0), Zero, PiTimes(1.0 / 200.0)]
  const NumJ2: seq<Angle> := [PiTimes(-1.0 / 4.0), PiTimes(-1.0 / 4.0), PiTimes(-1.0 / 4.0), PiTimes(-1.0 / 4.0),
    PiTimes(-1.0 / 4.5), PiTimes(-1.0 / 4.0), PiTimes(-1.0 / 4.0), PiTimes(-1.0 / 4.5), PiTimes(-1.0 / 4.0), PiTimes(-1.0 / 4.0)]
  const NumJ1: seq<Angle> := [PiTimes(-1.0 / 11.0), PiTimes(-1.0 / 15.0), PiTimes(-1.0 / 11.0), PiTimes(-1.0 / 10.0),
    PiTimes(-1.0 / 15.0), PiTimes(-1.0 / 11.0), PiTimes(-1.0 / 9.5), PiTimes(-1.0 / 15.0), PiTimes(-1.0 / 11.0), PiTimes(-1.0 / 9.5)]
  const BackJ2: seq<Angle> := [PiTimes(-1.0 / 3.75), PiTimes(-1.0 / 3.8), PiTimes(-1.0 / 3.6), PiTimes(-1.0 / 3.55),
    PiTimes(-1.0 / 3.8), PiTimes(-1.0 / 3.70), PiTimes(-1.0 / 3.6), PiTimes(-1.0 / 3.9), PiTimes(-1.0 / 3.75), PiTimes(-1.0 / 3.65)]
  const T1: seq<int> := [1000, 1000, 2000, 3000, 4000, 2000, 3000, 2000, 2000, 2000]
  const T2: seq<int> := [1000, 3000, 2000, 1000, 5000, 1000, 5000, 2000, 2000, 3000]
  const T3: seq<int> := [1000, 3000, 2000, 2000, 2000, 1000, 3000, 2000, 1000, 2000]
  const T4: seq<int> := [1000, 3000, 2000, 2000, 2000, 2000, 2000, 2000, 2000, 2000]

  /** The steps move_digit(d) emits. */
  function Press(d: int): (r: seq<Step>)
    requires 0 <= d <= 9
  {
    [Step(J3, NumJ3[d], T1[d]), Step(J2, NumJ2[d], T2[d]), Step(J1, NumJ1[d], T3[d]), Step(J2, BackJ2[d], T4[d])]
  }

  /** move_to_reference_point. */
  const Reference: seq<Step> :=
    [Step(J2, PiTimes(-1.0 / 4.0), 4000), Step(J1, PiTimes(-1.0 / 11.0), 2000), Step(J3, PiTimes(1.0 / 45.0), 2000)]

  /** confirm_vote. */
  const Confirm: seq<Step> :=
    [Step(J3, PiTimes(-1.0 / 70.0), 6000), Step(J2, PiTimes(-1.0 / 8.0), 6000),
     Step(J1, PiTimes(-1.0 / 8.0), 6000), Step(J2, PiTimes(-1.0 / 3.55), 7000)]

  /** move_to_home_position. */
  const Home: seq<Step> := [Step(J3, Zero, 3000), Step(J2, Zero, 15000), Step(J1, Zero, 3000), Step(J2, Zero, 2000)]

  /** The initial-position commands at the start of main; the second command
      reuses the joint_3 handle looked up for the first. */
  const Setup: seq<Step> :=
    [Step(J3, Zero, 1000), Step(J3, PiTimes(1.0 / 45.0), 2000),
     Step(J2, PiTimes(-1.0 / 4.0), 12000), Step(J1, PiTimes(-1.0 / 11.0), 3000)]

  /** One character of a token: a digit is pressed and the arm returns to the
      reference point; any other character is skipped. */
  function CharTrace(c: char): (r: seq<Step>)
  {
    match DigitOf(c)
    case Some(d) => Press(d) + Reference
    case None => []
  }

  /** The `for (i ...)` loop over the characters of one token. */
  function CharsTrace(s: string): (r: seq<Step>)
  {
    if s == [] then [] else CharsTrace(s[..|s| - 1]) + CharTrace(s[|s| - 1])
  }

  /** One token read by fscanf: the characters before its first NUL (the
      `strlen` the loop runs to), then confirm_vote and the reference point,
      whatever the token holds. */
  function TokenTrace(t: string): (r: seq<Step>)
  {
    CharsTrace(CString(t)) + Confirm + Reference
  }

  /** The `while (!feof(file))` loop over the tokens of the file. */
  function TokensTrace(ts: seq<string>): (r: seq<Step>)
  {
    if ts == [] then [] else TokensTrace(ts[..|ts| - 1]) + TokenTrace(ts[|ts| - 1])
  }

  /** The whole run of main once the connection and the file are open. */
  function Trace(ts: seq<string>): (r: seq<Step>)
  {
    Setup + TokensTrace(ts) + Home
  }

  lemma CharsTracePrefix(s: string, i: int)
    requires 0 <= i < |s|
    ensures CharsTrace(s[..i + 1]) == CharsTrace(s[..i]) + CharTrace(s[i])
  {
    assert s[..i + 1][..i] == s[..i];
  }

  lemma TokensTracePrefix(ts: seq<string>, k: int)
    requires 0 <= k < |ts|
    ensures TokensTrace(ts[..k + 1]) == TokensTrace(ts[..k]) + TokenTrace(ts[k])
  {
    assert ts[..k + 1][..k] == ts[..k];
  }

  /** The program's remote-API state: the global `handler` and the steps
      commanded so far. */
  class Controller {
    var handler: Handle
    var log: seq<Step>

    constructor ()
      ensures handler == Unresolved && log == []
    {
      handler := Unresolved;
      log := [];
    }

    /** strcpy of the joint's path into handlerName, then simxGetObjectHandle. */
    method GetObjectHandle(j: Joint)
      modifies this`handler
      ensures handler == Resolved(j)
    {
      handler := Resolved(j);
    }

    /** simxSetJointTargetPosition on the current handle, then extApi_sleepMs. */
    method SetTargetAndSleep(target: Angle, ms: int)
      requires handler.Resolved?
      modifies this`log
      ensures log == old(log) + [Step(handler.joint, target, ms)]
    {
      log := log + [Step(handler.joint, target, ms)];
    }

    method MoveDigit(digit: int)
      requires 0 <= digit <= 9
      modifies this
      ensures log == old(log) + Press(digit)
      ensures handler == Resolved(J2)
    {
      GetObjectHandle(J3);
      SetTargetAndSleep(NumJ3[digit], T1[digit]);
      GetObjectHandle(J2);
      SetTargetAndSleep(NumJ2[digit], T2[digit]);
      GetObjectHandle(J1);
      SetTargetAndSleep(NumJ1[digit], T3[digit]);
      GetObjectHandle(J2);
      SetTargetAndSleep(BackJ2[digit], T4[digit]);
    }

    method MoveToHomePosition()
      modifies this
      ensures log == old(log) + Home
      ensures handler == Resolved(J2)
    {
      GetObjectHandle(J3);
      SetTargetAndSleep(Zero, 3000);
      GetObjectHandle(J2);
      SetTargetAndSleep(Zero, 15000);
      GetObjectHandle(J1);
      SetTargetAndSleep(Zero, 3000);
      GetObjectHandle(J2);
      SetTargetAndSleep(Zero, 2000);
    }

    method MoveToReferencePoint()
      modifies this
      ensures log == old(log) + Reference
      ensures handler == Resolved(J3)
    {
      GetObjectHandle(J2);
      SetTargetAndSleep(PiTimes(-1.0 / 4.0), 4000);
      GetObjectHandle(J1);
      SetTargetAndSleep(PiTimes(-1.0 / 11.0), 2000);
      GetObjectHandle(J3);
      SetTargetAndSleep(PiTimes(1.0 / 45.0), 2000);
    }

    method ConfirmVote()
      modifies this
      ensures log == old(log) + Confirm
      ensures handler == Resolved(J2)
    {
      GetObjectHandle(J3);
      SetTargetAndSleep(PiTimes(-1.0 / 70.0), 6000);
      GetObjectHandle(J2);
      SetTargetAndSleep(PiTimes(-1.0 / 8.0), 6000);
      GetObjectHandle(J1);
      SetTargetAndSleep(PiTimes(-1.0 / 8.0), 6000);
      GetObjectHandle(J2);
      SetTargetAndSleep(PiTimes(-1.0 / 3.55), 7000);
    }

    /** The "initial position" block at the start of main (joint_3 is
        commanded twice through one handle lookup). */
    method SetUpInitialPosition()
      modifies this
      ensures log == old(log) + Setup
      ensures handler == Resolved(J1)
    {
      GetObjectHandle(J3);
      SetTargetAndSleep(Zero, 1000);
      SetTargetAndSleep(PiTimes(1.0 / 45.0), 2000);
      GetObjectHandle(J2);
      SetTargetAndSleep(PiTimes(-1.0 / 4.0), 12000);
      GetObjectHandle(J1);
      SetTargetAndSleep(PiTimes(-1.0 / 11.0), 3000);
    }

    /** The body of the `for (i ...)` loop for the character `number[i]`:
        `c - '0'` is pressed if it is a digit 0..9 and followed by the
        reference point; otherwise a warning is printed and nothing moves. */
    method ProcessCharacter(c: char)
      modifies this
      ensures log == old(log) + CharTrace(c)
      ensures DigitOf(c).Some? ==> handler == Resolved(J3)
      ensures DigitOf(c).None? ==> handler == old(handler)
    {
      var digit := c as int - '0' as int;
      if 0 <= digit <= 9 {
        MoveDigit(digit);
        MoveToReferencePoint();
        assert DigitOf(c) == Some(digit);
        Concat3(old(log), Press(digit), Reference);
      } else {
        assert DigitOf(c) == None;
      }
    }

    /** The body of the `while (!feof(file))` loop once fscanf has read a
        token into `number`: each valid digit is pressed and followed by the
        reference point, any other character is skipped with a warning, then
        the vote is confirmed whatever the token held. */
    method ProcessSequence(number: string)
      requires TokenFits(number)
      modifies this
      ensures log == old(log) + TokenTrace(number)
      ensures handler == Resolved(J3)
    {
      var len := StrLen(number);
      for i := 0 to len
        invariant log == old(log) + CharsTrace(number[..i])
      {
        ProcessCharacter(number[i]);
        CharsTracePrefix(number, i);
        Concat3(old(log), CharsTrace(number[..i]), CharTrace(number[i]));
      }
      ConfirmVote();
      MoveToReferencePoint();
      Concat4(old(log), CharsTrace(number[..len]), Confirm, Reference);
    }

    /** main after a successful connection, with the file already split into
        the tokens fscanf returns. */
    method Run(tokens: seq<string>)
      requires FitsBuffer(tokens)
      modifies this
      ensures log == old(log) + Trace(tokens)
      ensures handler == Resolved(J2)
    {
      SetUpInitialPosition();
      ghost var initial := log;
      var next := 0;
      while next < |tokens|
        invariant 0 <= next <= |tokens|
        invariant log == initial + TokensTrace(tokens[..next])
      {
        ProcessSequence(tokens[next]);
        TokensTracePrefix(tokens, next);
        Concat3(initial, TokensTrace(tokens[..next]), TokenTrace(tokens[next]));
        next := next + 1;
      }
      assert tokens[..|tokens|] == tokens;
      MoveToHomePosition();
      Concat4(old(log), Setup, TokensTrace(tokens), Home);
    }
  }
}

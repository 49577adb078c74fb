/** niryo_advanced_controller.c: the same voting run written with a
    parameterised `Vote` and the calibration tables held in `main`, the timing
    tables as floats. The pure functions below define the trace this program
    emits in its own terms; the class `Controller` follows its C code and is
    proved to emit exactly it. */
module Advanced {
  import opened Arm

  // Joint position tables of main (niryo_advanced_controller.c:155-158).
  const NumJ3: seq<Angle> := [PiTimes(-1.0 / 35.0), PiTimes(1.0 / 45.0), PiTimes(1.0 / 20.0), PiTimes(1.0 / 20.0),
    PiTimes(1.0 / 150.0), PiTimes(1.0 / 45.0), PiTimes(1.0 / 30.0), PiTimes(-1.0 / 55.0), Zero, PiTimes(1.0 / 200.0)]
  const NumJ2: seq<Angle> := [PiTimes(-1.0 / 4.0), PiTimes(-1.0 / 4.0), PiTimes(-1.0 / 4.0), PiTimes(-1.0 / 4.0),
    PiTimes(-1.0 / 4.5), PiTimes(-1.0 / 4.0), PiTimes(-1.0 / 4.0), PiTimes(-1.0 / 4.5), PiTimes(-1.0 / 4.0), PiTimes(-1.0 / 4.0)]
  const NumJ1: seq<Angle> := [PiTimes(-1.0 / 11.0), PiTimes(-1.0 / 15.0), PiTimes(-1.0 / 11.0), PiTimes(-1.0 / 10.0),
    PiTimes(-1.0 / 15.0), PiTimes(-1.0 / 11.0), PiTimes(-1.0 / 9.5), PiTimes(-1.0 / 15.0), PiTimes(-1.0 / 11.0), PiTimes(-1.0 / 9.5)]
  const BackJ2: seq<Angle> := [PiTimes(-1.0 / 3.75), PiTimes(-1.0 / 3.8), PiTimes(-1.0 / 3.6), PiTimes(-1.0 / 3.55),
    PiTimes(-1.0 / 3.8), PiTimes(-1.0 / 3.70), PiTimes(-1.0 / 3.6), PiTimes(-1.0 / 3.9), PiTimes(-1.0 / 3.75), PiTimes(-1.0 / 3.65)]

  // Timing tables of main, declared `float` (niryo_advanced_controller.c:161-164).
  const T1: seq<real> := [1000.0, 1000.0, 2000.0, 3000.0, 4000.0, 2000.0, 3000.0, 2000.0, 2000.0, 2000.0]
  const T2: seq<real> := [1000.0, 3000.0, 2000.0, 1000.0, 5000.0, 1000.0, 5000.0, 2000.0, 2000.0, 3000.0]
  const T3: seq<real> := [1000.0, 3000.0, 2000.0, 2000.0, 2000.0, 1000.0, 3000.0, 2000.0, 1000.0, 2000.0]
  const T4: seq<real> := [1000.0, 3000.0, 2000.0, 2000.0, 2000.0, 2000.0, 2000.0, 2000.0, 2000.0, 2000.0]

  /** C's `(int)` conversion of a float: truncation toward zero. A whole
      number is kept exactly. */
  function Truncate(x: real): (r: int)
    ensures 0.0 <= x ==> 0 <= r && r as real <= x < r as real + 1.0
    ensures x < 0.0 ==> r <= 0 && r as real - 1.0 < x <= r as real
    ensures x == x.Floor as real ==> r as real == x
  {
    if 0.0 <= x then x.Floor
    else
      var m := (-x).Floor;
      assert x == x.Floor as real ==> m == -x.Floor;
      -m
  }

  /** The steps Vote(numj3, numj2, numj1, backj2, tempo1, ..., tempo4) emits. */
  function VoteSteps(numj3: Angle, numj2: Angle, numj1: Angle, backj2: Angle,
                     tempo1: int, tempo2: int, tempo3: int, tempo4: int): (r: seq<Step>)
  {
    [Step(J3, numj3, tempo1), Step(J2, numj2, tempo2), Step(J1, numj1, tempo3), Step(J2, backj2, tempo4)]
  }

  /** The call of Vote for digit d in main: the tables at d, timings truncated. */
  function DigitSteps(d: int): (r: seq<Step>)
    requires 0 <= d <= 9
  {
    VoteSteps(NumJ3[d], NumJ2[d], NumJ1[d], BackJ2[d], Truncate(T1[d]), Truncate(T2[d]), Truncate(T3[d]), Truncate(T4[d]))
  }

  /** DefinedPoint. */
  const DefinedPointSteps: seq<Step> :=
    [Step(J2, PiTimes(-1.0 / 4.0), 4000), Step(J1, PiTimes(-1.0 / 11.0), 2000), Step(J3, PiTimes(1.0 / 45.0), 2000)]

  /** ConfirmVote. */
  const ConfirmVoteSteps: seq<Step> :=
    [Step(J3, PiTimes(-1.0 / 70.0), 6000), Step(J2, PiTimes(-1.0 / 8.0), 6000),
     Step(J1, PiTimes(-1.0 / 8.0), 6000), Step(J2, PiTimes(-1.0 / 3.55), 7000)]

  /** InitialPosition (all joints to zero). */
  const InitialPositionSteps: seq<Step> :=
    [Step(J3, Zero, 3000), Step(J2, Zero, 15000), Step(J1, Zero, 3000), Step(J2, Zero, 2000)]

  /** The "central point" commands at the start of main; the second command
      reuses the joint_3 handle. */
  const CentralPointSteps: seq<Step> :=
    [Step(J3, Zero, 1000), Step(J3, PiTimes(1.0 / 45.0), 2000),
     Step(J2, PiTimes(-1.0 / 4.0), 12000), Step(J1, PiTimes(-1.0 / 11.0), 3000)]

  /** One character: a valid digit votes and returns to the defined point;
      anything else is skipped without a message. */
  function CharTrace(c: char): (r: seq<Step>)
  {
    match DigitOf(c)
    case Some(d) => DigitSteps(d) + DefinedPointSteps
    case None => []
  }

  /** The `for (cont ...)` loop. */
  function CharsTrace(s: string): (r: seq<Step>)
  {
    if s == [] then [] else CharsTrace(s[..|s| - 1]) + CharTrace(s[|s| - 1])
  }

  /** One sequence: its characters, then (as `cont == len` always holds after
      the loop) ConfirmVote and DefinedPoint. */
  function SequenceTrace(t: string): (r: seq<Step>)
  {
    CharsTrace(CString(t)) + ConfirmVoteSteps + DefinedPointSteps
  }

  function SequencesTrace(ts: seq<string>): (r: seq<Step>)
  {
    if ts == [] then [] else SequencesTrace(ts[..|ts| - 1]) + SequenceTrace(ts[|ts| - 1])
  }

  /** The whole run of main once the connection and the file are open. */
  function Trace(ts: seq<string>): (r: seq<Step>)
  {
    CentralPointSteps + SequencesTrace(ts) + InitialPositionSteps
  }

  lemma CharsTracePrefix(s: string, i: int)
    requires 0 <= i < |s|
    ensures CharsTrace(s[..i + 1]) == CharsTrace(s[..i]) + CharTrace(s[i])
  {
    assert s[..i + 1][..i] == s[..i];
  }

  lemma SequencesTracePrefix(ts: seq<string>, k: int)
    requires 0 <= k < |ts|
    ensures SequencesTrace(ts[..k + 1]) == SequencesTrace(ts[..k]) + SequenceTrace(ts[k])
  {
    assert ts[..k + 1][..k] == ts[..k];
  }

  /** Vote emits four steps on joint_3, joint_2, joint_1, joint_2, taking
      the targets and the sleeps from its arguments in order. */
  lemma VoteShape(numj3: Angle, numj2: Angle, numj1: Angle, backj2: Angle,
                  tempo1: int, tempo2: int, tempo3: int, tempo4: int)
    ensures var r := VoteSteps(numj3, numj2, numj1, backj2, tempo1, tempo2, tempo3, tempo4);
      Joints(r) == [J3, J2, J1, J2] && Settles(r) == [tempo1, tempo2, tempo3, tempo4] &&
      r[0].target == numj3 && r[1].target == numj2 && r[2].target == numj1 && r[3].target == backj2
  {
  }

  /** A character outside '0'..'9' is skipped and emits nothing. */
  lemma InvalidCharacterSkipped(c: char)
    ensures CharTrace(c) == [] <==> !('0' <= c <= '9')
  {
  }

  /** The program's remote-API state: the global `handler` and the steps
      commanded so far. */
  class Controller {
    var handler: Handle
    var log: seq<Step>

    /** `handler = 0` at the start of main: no joint looked up yet. */
    constructor ()
      ensures handler == Unresolved && log == []
    {
      handler := Unresolved;
      log := [];
    }

    /** strcpy of the joint's path into handlerName, then simxGetObjectHandle. */
    method GetObjectHandle(j: Joint)
      modifies this`handler
      ensures handler == Resolved(j)
    {
      handler := Resolved(j);
    }

    /** simxSetJointTargetPosition on the current handle, then extApi_sleepMs. */
    method SetTargetAndSleep(target: Angle, ms: int)
      requires handler.Resolved?
      modifies this`log
      ensures log == old(log) + [Step(handler.joint, target, ms)]
    {
      log := log + [Step(handler.joint, target, ms)];
    }

    method InitialPosition()
      modifies this
      ensures log == old(log) + InitialPositionSteps
      ensures handler == Resolved(J2)
    {
      GetObjectHandle(J3);
      SetTargetAndSleep(Zero, 3000);
      GetObjectHandle(J2);
      SetTargetAndSleep(Zero, 15000);
      GetObjectHandle(J1);
      SetTargetAndSleep(Zero, 3000);
      GetObjectHandle(J2);
      SetTargetAndSleep(Zero, 2000);
    }

    method DefinedPoint()
      modifies this
      ensures log == old(log) + DefinedPointSteps
      ensures handler == Resolved(J3)
    {
      GetObjectHandle(J2);
      SetTargetAndSleep(PiTimes(-1.0 / 4.0), 4000);
      GetObjectHandle(J1);
      SetTargetAndSleep(PiTimes(-1.0 / 11.0), 2000);
      GetObjectHandle(J3);
      SetTargetAndSleep(PiTimes(1.0 / 45.0), 2000);
    }

    method ConfirmVote()
      modifies this
      ensures log == old(log) + ConfirmVoteSteps
      ensures handler == Resolved(J2)
    {
      GetObjectHandle(J3);
      SetTargetAndSleep(PiTimes(-1.0 / 70.0), 6000);
      GetObjectHandle(J2);
      SetTargetAndSleep(PiTimes(-1.0 / 8.0), 6000);
      GetObjectHandle(J1);
      SetTargetAndSleep(PiTimes(-1.0 / 8.0), 6000);
      GetObjectHandle(J2);
      SetTargetAndSleep(PiTimes(-1.0 / 3.55), 7000);
    }

    /** Four commands, joint_3, joint_2, joint_1, joint_2, using exactly the
        arguments in order. */
    method Vote(numj3: Angle, numj2: Angle, numj1: Angle, backj2: Angle,
                tempo1: int, tempo2: int, tempo3: int, tempo4: int)
      modifies this
      ensures log == old(log) + VoteSteps(numj3, numj2, numj1, backj2, tempo1, tempo2, tempo3, tempo4)
      ensures handler == Resolved(J2)
    {
      GetObjectHandle(J3);
      SetTargetAndSleep(numj3, tempo1);
      GetObjectHandle(J2);
      SetTargetAndSleep(numj2, tempo2);
      GetObjectHandle(J1);
      SetTargetAndSleep(numj1, tempo3);
      GetObjectHandle(J2);
      SetTargetAndSleep(backj2, tempo4);
    }

    /** The "central point" block at the start of main. */
    method SetCentralPoint()
      modifies this
      ensures log == old(log) + CentralPointSteps
      ensures handler == Resolved(J1)
    {
      GetObjectHandle(J3);
      SetTargetAndSleep(Zero, 1000);
      SetTargetAndSleep(PiTimes(1.0 / 45.0), 2000);
      GetObjectHandle(J2);
      SetTargetAndSleep(PiTimes(-1.0 / 4.0), 12000);
      GetObjectHandle(J1);
      SetTargetAndSleep(PiTimes(-1.0 / 11.0), 3000);
    }

    /** The body of the `for (cont ...)` loop for the character
        `number[cont]`: if `c - '0'` is a digit 0..9, Vote with that digit's
        table entries (timings cast to int) and return to the defined point;
        otherwise nothing. */
    method ProcessCharacter(c: char)
      modifies this
      ensures log == old(log) + CharTrace(c)
      ensures DigitOf(c).Some? ==> handler == Resolved(J3)
      ensures DigitOf(c).None? ==> handler == old(handler)
    {
      var digit := c as int - '0' as int;
      if 0 <= digit <= 9 {
        Vote(NumJ3[digit], NumJ2[digit], NumJ1[digit], BackJ2[digit],
             Truncate(T1[digit]), Truncate(T2[digit]), Truncate(T3[digit]), Truncate(T4[digit]));
        assert log == old(log) + DigitSteps(digit);
        DefinedPoint();
        assert DigitOf(c) == Some(digit);
        Concat3(old(log), DigitSteps(digit), DefinedPointSteps);
      } else {
        assert DigitOf(c) == None;
      }
    }

    /** The body of the `while (!feof(file))` loop once fscanf has read a
        sequence into `number`: each valid digit votes and returns to the
        defined point, any other character is skipped, and since the loop
        leaves `cont == len` the vote is then always confirmed. */
    method ProcessSequence(number: string)
      requires TokenFits(number)
      modifies this
      ensures log == old(log) + SequenceTrace(number)
      ensures handler == Resolved(J3)
    {
      var len := StrLen(number);
      var cont := 0;
      while cont < len
        invariant 0 <= cont <= len
        invariant log == old(log) + CharsTrace(number[..cont])
      {
        ProcessCharacter(number[cont]);
        CharsTracePrefix(number, cont);
        Concat3(old(log), CharsTrace(number[..cont]), CharTrace(number[cont]));
        cont := cont + 1;
      }
      assert cont == len;
      if cont == len {
        ConfirmVote();
        DefinedPoint();
      }
      Concat4(old(log), CharsTrace(number[..len]), ConfirmVoteSteps, DefinedPointSteps);
    }

    /** main after a successful connection, with the file already split into
        the sequences fscanf returns. */
    method Run(tokens: seq<string>)
      requires FitsBuffer(tokens)
      modifies this
      ensures log == old(log) + Trace(tokens)
      ensures handler == Resolved(J2)
    {
      SetCentralPoint();
      ghost var initial := log;
      var next := 0;
      while next < |tokens|
        invariant 0 <= next <= |tokens|
        invariant log == initial + SequencesTrace(tokens[..next])
      {
        ProcessSequence(tokens[next]);
        SequencesTracePrefix(tokens, next);
        Concat3(initial, SequencesTrace(tokens[..next]), SequenceTrace(tokens[next]));
        next := next + 1;
      }
      assert tokens[..|tokens|] == tokens;
      InitialPosition();
      Concat4(old(log), CentralPointSteps, SequencesTrace(tokens), InitialPositionSteps);
    }
  }
}

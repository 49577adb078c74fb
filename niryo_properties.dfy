/** Properties of the motion trace niryo_controller.c emits: the shape of each
    gesture, the filtering of characters, the per-token structure and length,
    composition over tokens, and the poses the arm is commanded to between
    gestures. */
module NiryoProperties {
  import opened Arm
  import opened Niryo

  /** move_digit(d) is four steps, joint_3, joint_2, joint_1 and joint_2
      again, reading the four angle tables and the four timing tables at d. */
  lemma PressShape(d: int)
    requires 0 <= d <= 9
    ensures Joints(Press(d)) == [J3, J2, J1, J2]
    ensures [Press(d)[0].target, Press(d)[1].target, Press(d)[2].target, Press(d)[3].target]
         == [NumJ3[d], NumJ2[d], NumJ1[d], BackJ2[d]]
    ensures Settles(Press(d)) == [T1[d], T2[d], T3[d], T4[d]]
  {
  }

  /** move_to_reference_point: joint_2, joint_1, joint_3, settling 4000,
      2000 and 2000 ms. */
  lemma ReferenceShape()
    ensures Joints(Reference) == [J2, J1, J3] && Settles(Reference) == [4000, 2000, 2000]
    ensures Reference[0].target == PiTimes(-1.0 / 4.0) && Reference[1].target == PiTimes(-1.0 / 11.0)
    ensures Reference[2].target == PiTimes(1.0 / 45.0)
  {
  }

  /** confirm_vote: joint_3, joint_2, joint_1, joint_2, settling 6000, 6000,
      6000 and 7000 ms. */
  lemma ConfirmShape()
    ensures Joints(Confirm) == [J3, J2, J1, J2] && Settles(Confirm) == [6000, 6000, 6000, 7000]
  {
  }

  /** move_to_home_position: joint_3, joint_2, joint_1, joint_2, every
      target zero, settling 3000, 15000, 3000 and 2000 ms. */
  lemma HomeShape()
    ensures Joints(Home) == [J3, J2, J1, J2] && Settles(Home) == [3000, 15000, 3000, 2000]
    ensures forall k :: 0 <= k < |Home| ==> Home[k].target == Zero
  {
  }

  /** The setup of main: joint_3 to 0 then to PI/45, joint_2 to -PI/4,
      joint_1 to -PI/11, settling 1000, 2000, 12000 and 3000 ms. */
  lemma SetupShape()
    ensures Joints(Setup) == [J3, J3, J2, J1] && Settles(Setup) == [1000, 2000, 12000, 3000]
    ensures Setup[0].target == Zero && Setup[1].target == PiTimes(1.0 / 45.0)
    ensures Setup[2].target == PiTimes(-1.0 / 4.0) && Setup[3].target == PiTimes(-1.0 / 11.0)
  {
  }

  /** A character emits nothing exactly when it is outside '0'..'9'. */
  lemma InvalidCharacterSkipped(c: char)
    ensures CharTrace(c) == [] <==> !('0' <= c <= '9')
  {
  }

  lemma {:induction false} CharsTraceAppend(a: string, b: string)
    ensures CharsTrace(a + b) == CharsTrace(a) + CharsTrace(b)
  {
    if b == [] {
      assert a + b == a;
    } else {
      var n := |b| - 1;
      assert (a + b)[..|a + b| - 1] == a + b[..n];
      assert (a + b)[|a + b| - 1] == b[n];
      CharsTraceAppend(a, b[..n]);
      Concat3(CharsTrace(a), CharsTrace(b[..n]), CharTrace(b[n]));
    }
  }

  /** The token with every character outside '0'..'9' removed. */
  function KeepDigits(s: string): (r: string)
    ensures |r| <= |s|
    ensures forall k :: 0 <= k < |r| ==> '0' <= r[k] <= '9'
  {
    if s == [] then []
    else
      var last := s[|s| - 1];
      KeepDigits(s[..|s| - 1]) + (if '0' <= last <= '9' then [last] else [])
  }

  /** The digits `c - '0'` of the characters that pass the range test, in order. */
  function Digits(s: string): (r: seq<int>)
    ensures |r| <= |s|
    ensures forall k :: 0 <= k < |r| ==> 0 <= r[k] <= 9
  {
    if s == [] then []
    else
      Digits(s[..|s| - 1]) + (match DigitOf(s[|s| - 1]) case Some(d) => [d] case None => [])
  }

  /** Reference definition of the digit part of a token: press then return to
      the reference point, once per digit. */
  function DigitsTrace(ds: seq<int>): (r: seq<Step>)
    requires forall k :: 0 <= k < |ds| ==> 0 <= ds[k] <= 9
  {
    if ds == [] then [] else DigitsTrace(ds[..|ds| - 1]) + Press(ds[|ds| - 1]) + Reference
  }

  lemma {:induction false} CharsTraceIsDigitsTrace(s: string)
    ensures CharsTrace(s) == DigitsTrace(Digits(s))
  {
    if s != [] {
      var init, last := s[..|s| - 1], s[|s| - 1];
      CharsTraceIsDigitsTrace(init);
      assert CharsTrace(s) == CharsTrace(init) + CharTrace(last);
      match DigitOf(last)
      case None =>
        assert Digits(s) == Digits(init);
      case Some(d) =>
        var ds := Digits(s);
        assert ds == Digits(init) + [d];
        assert ds[..|ds| - 1] == Digits(init) && ds[|ds| - 1] == d;
        assert DigitsTrace(ds) == DigitsTrace(Digits(init)) + Press(d) + Reference;
        Concat3(DigitsTrace(Digits(init)), Press(d), Reference);
    }
  }

  lemma {:induction false} DigitsOfKeepDigits(s: string)
    ensures Digits(KeepDigits(s)) == Digits(s)
  {
    if s != [] {
      var init, last := s[..|s| - 1], s[|s| - 1];
      DigitsOfKeepDigits(init);
      var kept := KeepDigits(init);
      if '0' <= last <= '9' {
        var k := KeepDigits(s);
        assert k == kept + [last];
        assert k[..|k| - 1] == kept && k[|k| - 1] == last;
        var d := DigitOf(last).value;
        assert Digits(k) == Digits(kept) + [d];
        assert Digits(s) == Digits(init) + [d];
      } else {
        assert KeepDigits(s) == kept;
        assert Digits(s) == Digits(init);
      }
    }
  }

  /** Any character outside '0'..'9' is skipped: a token emits exactly what
      its C string (the part before any NUL) with only its digits kept emits. */
  lemma InvalidCharactersIgnored(s: string)
    ensures TokenTrace(s) == TokenTrace(KeepDigits(CString(s)))
  {
    var text := CString(s);
    var kept := KeepDigits(text);
    assert CString(kept) == kept by {
      assert StrLen(kept) == |kept|;
    }
    CharsTraceIsDigitsTrace(text);
    CharsTraceIsDigitsTrace(kept);
    DigitsOfKeepDigits(text);
  }

  /** A token with digits ds emits press and reference for each digit, then
      confirm and reference; the confirm is there even when ds is empty. */
  lemma TokenTraceStructure(t: string)
    ensures TokenTrace(t) == DigitsTrace(Digits(CString(t))) + Confirm + Reference
  {
    CharsTraceIsDigitsTrace(CString(t));
  }

  lemma {:induction false} DigitsTraceLength(ds: seq<int>)
    requires forall k :: 0 <= k < |ds| ==> 0 <= ds[k] <= 9
    ensures |DigitsTrace(ds)| == 7 * |ds|
  {
    if ds != [] {
      DigitsTraceLength(ds[..|ds| - 1]);
    }
  }

  /** A token with v valid digits before any NUL emits 7v + 7 steps. */
  lemma TokenTraceLength(t: string)
    ensures |TokenTrace(t)| == 7 * |Digits(CString(t))| + 7
  {
    TokenTraceStructure(t);
    DigitsTraceLength(Digits(CString(t)));
  }

  /** Every token ends with confirm then reference. */
  lemma ConfirmEveryToken(t: string)
    ensures |TokenTrace(t)| >= 7
    ensures TokenTrace(t)[|TokenTrace(t)| - 7..] == Confirm + Reference
  {
    var tr := TokenTrace(t);
    assert tr == CharsTrace(CString(t)) + (Confirm + Reference);
  }

  lemma {:induction false} TokensTraceAppend(a: seq<string>, b: seq<string>)
    ensures TokensTrace(a + b) == TokensTrace(a) + TokensTrace(b)
  {
    if b == [] {
      assert a + b == a;
    } else {
      var n := |b| - 1;
      assert (a + b)[..|a + b| - 1] == a + b[..n];
      assert (a + b)[|a + b| - 1] == b[n];
      TokensTraceAppend(a, b[..n]);
      Concat3(TokensTrace(a), TokensTrace(b[..n]), TokenTrace(b[n]));
    }
  }

  /** An empty file: the setup moves, then home. */
  lemma TraceNoTokens()
    ensures Trace([]) == Setup + Home
  {
  }

  /** The number of valid digits over all tokens. */
  function DigitCount(ts: seq<string>): (r: nat)
  {
    if ts == [] then 0 else DigitCount(ts[..|ts| - 1]) + |Digits(CString(ts[|ts| - 1]))|
  }

  /** A run over n tokens holding v valid digits in all emits 8 + 7n + 7v steps. */
  lemma {:induction false} TraceLength(ts: seq<string>)
    ensures |TokensTrace(ts)| == 7 * |ts| + 7 * DigitCount(ts)
    ensures |Trace(ts)| == 8 + 7 * |ts| + 7 * DigitCount(ts)
  {
    if ts != [] {
      TraceLength(ts[..|ts| - 1]);
      TokenTraceLength(ts[|ts| - 1]);
    }
  }

  /** The token "123": three presses, each followed by the reference point,
      then confirm and the reference point. */
  lemma ExampleOneTwoThree()
    ensures TokenTrace("123")
         == Press(1) + Reference + Press(2) + Reference + Press(3) + Reference + Confirm + Reference
  {
    assert StrLen("123") == 3 && CString("123") == "123";
    assert "123"[..2] == "12" && "12"[..1] == "1" && "1"[..0] == "";
    assert DigitOf('1') == Some(1) && DigitOf('2') == Some(2) && DigitOf('3') == Some(3);
    var p1, p2, p3 := Press(1) + Reference, Press(2) + Reference, Press(3) + Reference;
    assert CharsTrace("123") == p1 + p2 + p3;
    Concat3(p1, Press(2), Reference);
    Concat3(p1 + Press(2) + Reference, Press(3), Reference);
  }

  /** The token "1A2" emits what "12" emits. */
  lemma ExampleInvalidCharacter()
    ensures TokenTrace("1A2") == TokenTrace("12")
  {
    assert StrLen("1A2") == 3 && CString("1A2") == "1A2";
    assert StrLen("12") == 2 && CString("12") == "12";
    assert "1A2"[..2] == "1A" && "1A"[..1] == "1" && "12"[..1] == "1" && "1"[..0] == "";
  }

  /** `strlen` stops at a NUL: the token "1", NUL, "2" presses digit 1 only. */
  lemma ExampleNulEndsToken()
    ensures TokenTrace("1\02") == TokenTrace("1")
    ensures |TokenTrace("1\02")| == 14
  {
    assert StrLen("1\02") == 1 && CString("1\02") == "1";
    assert StrLen("1") == 1 && CString("1") == "1";
    assert "1"[..0] == "";
  }

  /** The pose move_to_reference_point commands: the one above digit 5, where
      its press has put joints 1 to 3 before joint_2 backs off. */
  const ReferencePose: Pose := Pose(PiTimes(-1.0 / 11.0), PiTimes(-1.0 / 4.0), PiTimes(1.0 / 45.0))

  lemma ReferenceReachesReferencePose(p: Pose)
    ensures ReferencePose == Pose(NumJ1[5], NumJ2[5], NumJ3[5])
    ensures After(p, Press(5)[..3]) == ReferencePose
    ensures After(p, Reference) == ReferencePose
  {
    var press := Press(5);
    assert press[..3] == [press[0], press[1], press[2]];
    AfterThree(p, press[0], press[1], press[2]);
    AfterThree(p, Reference[0], Reference[1], Reference[2]);
  }

  /** The setup moves are not the reference gesture, but they command the
      same pose. */
  lemma SetupReachesReferencePose(p: Pose)
    ensures Setup != Reference
    ensures After(p, Setup) == ReferencePose
  {
    AfterFour(p, Setup[0], Setup[1], Setup[2], Setup[3]);
  }

  /** move_to_home_position commands every joint to zero. */
  lemma HomeReachesZeroPose(p: Pose)
    ensures After(p, Home) == ZeroPose
  {
    AfterFour(p, Home[0], Home[1], Home[2], Home[3]);
  }

  /** Whatever a token holds, it leaves the arm at the reference point. */
  lemma TokenEndsAtReference(p: Pose, t: string)
    ensures After(p, TokenTrace(t)) == ReferencePose
  {
    AfterAppend(p, CharsTrace(CString(t)) + Confirm, Reference);
    ReferenceReachesReferencePose(After(p, CharsTrace(CString(t)) + Confirm));
  }

  /** Each token starts from the reference point: after the setup and any
      number of tokens the commanded pose is the reference pose. */
  lemma {:induction false} EveryTokenStartsAtReference(p: Pose, ts: seq<string>)
    ensures After(p, Setup + TokensTrace(ts)) == ReferencePose
  {
    if ts == [] {
      assert Setup + TokensTrace(ts) == Setup;
      SetupReachesReferencePose(p);
    } else {
      var init := ts[..|ts| - 1];
      Concat3(Setup, TokensTrace(init), TokenTrace(ts[|ts| - 1]));
      AfterAppend(p, Setup + TokensTrace(init), TokenTrace(ts[|ts| - 1]));
      TokenEndsAtReference(After(p, Setup + TokensTrace(init)), ts[|ts| - 1]);
    }
  }

  /** Every run ends with every joint commanded to zero. */
  lemma RunEndsAtHome(p: Pose, ts: seq<string>)
    ensures After(p, Trace(ts)) == ZeroPose
  {
    AfterAppend(p, Setup + TokensTrace(ts), Home);
    HomeReachesZeroPose(After(p, Setup + TokensTrace(ts)));
  }
}

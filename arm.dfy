/** Vocabulary shared by both controller programs: the three joints of the
    Niryo One arm, joint targets as exact multiples of pi, one recorded motion
    step, the remote-API object handle, and the pose the commanded targets
    describe. */
module Arm {

  datatype Option<T> = None | Some(value: T)

  /** The joints the programs command (joint_1, joint_2, joint_3 of the arm). */
  datatype Joint = J1 | J2 | J3

  /** A joint target PiTimes(c) stands for c * PI radians. The programs write
      every target as PI divided by a constant (or 0), so the coefficient is
      exact and no floating point is involved. */
  datatype Angle = PiTimes(coef: real)

  const Zero: Angle := PiTimes(0.0)

  /** One simxSetJointTargetPosition call followed by one extApi_sleepMs call:
      the joint the current handle names, its new target, and the sleep in ms. */
  datatype Step = Step(joint: Joint, target: Angle, settleMs: int)

  /** The value of the programs' global `handler`: nothing looked up yet, or
      the handle simxGetObjectHandle returned for a joint's path. */
  datatype Handle = Unresolved | Resolved(joint: Joint)

  /** The character-to-digit conversion `c - '0'` followed by the range test
      `0 <= digit <= 9` both programs perform. */
  function DigitOf(c: char): (r: Option<int>)
    ensures r.Some? <==> '0' <= c <= '9'
    ensures r.Some? ==> 0 <= r.value <= 9 && r.value + '0' as int == c as int
  {
    var digit := c as int - '0' as int;
    if 0 <= digit <= 9 then Some(digit) else None
  }

  /** The joints of a list of steps, in order. */
  function Joints(steps: seq<Step>): (r: seq<Joint>)
  {
    seq(|steps|, k requires 0 <= k < |steps| => steps[k].joint)
  }

  /** The sleeps of a list of steps, in order. */
  function Settles(steps: seq<Step>): (r: seq<int>)
  {
    seq(|steps|, k requires 0 <= k < |steps| => steps[k].settleMs)
  }

  /** `strlen`: the number of characters before the first NUL, or all of them
      when there is none. `fscanf` with "%s" stops only at white space, so a
      token may hold a NUL, and the loops over `len` stop there. */
  function StrLen(s: string): (r: nat)
    ensures r <= |s|
    ensures forall k :: 0 <= k < r ==> s[k] != '\0'
    ensures r < |s| ==> s[r] == '\0'
  {
    if s == [] || s[0] == '\0' then 0 else 1 + StrLen(s[1..])
  }

  /** The C string held in the buffer: the characters `strlen` counts. */
  function CString(s: string): (r: string)
  {
    s[..StrLen(s)]
  }

  /** A token fscanf can store in `char number[10]`: at most nine bytes plus
      the terminating NUL. A character stands for one byte, so every
      character is below 256. */
  predicate TokenFits(t: string)
  {
    |t| <= 9 && forall k :: 0 <= k < |t| ==> t[k] as int < 256
  }

  /** Every token of the file fits the buffer. */
  predicate FitsBuffer(ts: seq<string>)
  {
    forall k :: 0 <= k < |ts| ==> TokenFits(ts[k])
  }

  /** The last target commanded to each joint. No position is ever read back,
      so this is what the programs intend the arm to reach, not where it is. */
  datatype Pose = Pose(j1: Angle, j2: Angle, j3: Angle)

  const ZeroPose: Pose := Pose(Zero, Zero, Zero)

  function Apply(p: Pose, s: Step): (r: Pose)
  {
    match s.joint
    case J1 => p.(j1 := s.target)
    case J2 => p.(j2 := s.target)
    case J3 => p.(j3 := s.target)
  }

  /** The pose after replaying `steps` from pose `p`. */
  function After(p: Pose, steps: seq<Step>): (r: Pose)
  {
    if steps == [] then p else Apply(After(p, steps[..|steps| - 1]), steps[|steps| - 1])
  }

  lemma AfterThree(p: Pose, a: Step, b: Step, c: Step)
    ensures After(p, [a, b, c]) == Apply(Apply(Apply(p, a), b), c)
  {
    assert [a, b, c][..2] == [a, b] && [a, b][..1] == [a] && [a][..0] == [];
    assert After(p, [a]) == Apply(p, a);
    assert After(p, [a, b]) == Apply(Apply(p, a), b);
  }

  lemma AfterFour(p: Pose, a: Step, b: Step, c: Step, d: Step)
    ensures After(p, [a, b, c, d]) == Apply(Apply(Apply(Apply(p, a), b), c), d)
  {
    assert [a, b, c, d][..3] == [a, b, c];
    AfterThree(p, a, b, c);
  }

  lemma Concat3<T>(a: seq<T>, b: seq<T>, c: seq<T>)
    ensures a + b + c == a + (b + c)
  {
  }

  lemma Concat4<T>(a: seq<T>, b: seq<T>, c: seq<T>, d: seq<T>)
    ensures a + b + c + d == a + (b + c + d)
  {
  }

  lemma {:induction false} AfterAppend(p: Pose, a: seq<Step>, b: seq<Step>)
    ensures After(p, a + b) == After(After(p, a), b)
  {
    if b == [] {
      assert a + b == a;
    } else {
      var n := |b| - 1;
      assert (a + b)[..|a + b| - 1] == a + b[..n];
      assert (a + b)[|a + b| - 1] == b[n];
      AfterAppend(p, a, b[..n]);
    }
  }
}

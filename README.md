# Niryo One voting controller: the motion-command trace

Two C programs drive a simulated Niryo One arm in CoppeliaSim so that it
"votes". Each program reads whitespace-separated sequences of digit
characters from `voting_sequences.txt`. For each digit the arm presses a key
on a keypad and then returns to a reference point above digit 5. At the end
of each sequence it confirms the vote, and after the last sequence it goes
home. This project models the only precise behaviour of the two programs:
the list of joint commands they send, each one followed by a sleep.

- `arm.dfy` (module `Arm`) defines the shared vocabulary:
  - joints `J1`/`J2`/`J3`;
  - joint targets as exact multiples of pi (`PiTimes(c)`);
  - a `Step` (joint, target, settle time in ms), which stands for one
    `simxSetJointTargetPosition` and the `extApi_sleepMs` after it;
  - the global `handler`;
  - the character test `c - '0'` in 0..9;
  - the pose a list of steps commands.
- `niryo.dfy` (module `Niryo`) models `niryo_controller.c`:
  - the calibration tables, and the trace the program emits as pure
    functions (`Press`, `Reference`, `Confirm`, `Home`, `Setup`,
    `CharTrace`, `TokenTrace`, `Trace`);
  - a class `Controller` whose fields are the global `handler` and the log
    of commanded steps. Its methods follow the C functions statement by
    statement, and the loops of `main` follow the `while`/`for` structure
    with invariants. Each method is proved to append to the log exactly
    what the pure trace says.
- `niryo_properties.dfy` (module `NiryoProperties`) holds properties of that
  trace:
  - the makeup of each gesture;
  - invalid characters are ignored;
  - the 7v + 7 count per token;
  - traces concatenate;
  - the poses the arm is commanded to.
- `advanced.dfy` (module `Advanced`) models `niryo_advanced_controller.c`
  in the same way, in that file's own terms:
  - the parameterised `Vote`;
  - float timing tables cast with C's `(int)`, modelled as `Truncate`;
  - the `for (cont ...)` loop and its `cont == len` test.
- `equivalence.dfy` (module `Equivalence`) proves that the two programs emit
  the same trace for every input.

Modelling decisions:
- `main`'s inline code is modelled as separate methods:
  - the setup block becomes `SetUpInitialPosition` / `SetCentralPoint`;
  - the body of the token loop becomes `ProcessSequence`;
  - the body of the character loop becomes `ProcessCharacter`.
  The statements are unchanged and in the same order.
- Sleep durations are `int`. Every value in the programs is a positive
  constant.
- Each program writes its targets as `PI / k`. The model keeps the exact
  coefficient `1/k` instead of a float.
- A token is a `string` that stands for a C byte string: each character is
  one byte, so it is below 256. The file is given as the list of tokens
  `fscanf` would return. Because `number` is `char[10]`, every token has at
  most 9 bytes (`TokenFits`, `FitsBuffer`).
- Both loops run to `len = strlen(number)` (`StrLen`). "%s" stops only at
  white space, so a token may hold a NUL byte, and its characters after the
  first NUL are never looked at (`ExampleNulEndsToken`).
- A token with v valid digits emits 7v + 7 steps:
  - 4 + 3 for each digit (press, then reference);
  - then 4 + 3 (confirm, then reference).
- The setup at the start of `main` is not the reference gesture. It moves
  joint_3 twice and uses other sleeps. It does command the same pose as the
  reference gesture (`SetupReachesReferencePose`).

## Model

| member | source | states |
|---|---|---|
| Arm.StrLen | niryo_controller.c:236 | `strlen`: the result is at most the token's length, no character before it is NUL, and the character at it is NUL unless it is the whole length |
| Arm.CString | niryo_controller.c:236 | definition of the characters `strlen` counts: the token up to its first NUL |
| Arm.TokenFits | niryo_controller.c:219 | definition of a token `char number[10]` holds: at most nine bytes, each character one byte |
| Arm.FitsBuffer | niryo_controller.c:235 | definition of a file whose every token fits `number` |
| Niryo.NumJ3 | niryo_controller.c:41 | the joint_3 press targets, digit by digit |
| Niryo.NumJ2 | niryo_controller.c:42 | the joint_2 press targets, digit by digit |
| Niryo.NumJ1 | niryo_controller.c:43 | the joint_1 press targets, digit by digit |
| Niryo.BackJ2 | niryo_controller.c:44 | the joint_2 back-off targets, digit by digit |
| Niryo.T1 | niryo_controller.c:47 | the first sleep of each press, digit by digit |
| Niryo.T2 | niryo_controller.c:48 | the second sleep of each press, digit by digit |
| Niryo.T3 | niryo_controller.c:49 | the third sleep of each press, digit by digit |
| Niryo.T4 | niryo_controller.c:50 | the fourth sleep of each press, digit by digit |
| Niryo.Reference | niryo_controller.c:113-133 | definition of the steps move_to_reference_point emits |
| Niryo.Confirm | niryo_controller.c:138-164 | definition of the steps confirm_vote emits |
| Niryo.Home | niryo_controller.c:82-108 | definition of the steps move_to_home_position emits |
| Niryo.Setup | niryo_controller.c:198-215 | definition of the setup steps at the start of main |
| Niryo.Controller.constructor | niryo_controller.c:31-33 | the globals start zeroed: no handle looked up and nothing commanded |
| Arm.After | niryo_controller.c:57 | definition of the pose a list of steps commands: each step's target replaces its joint's, in order |
| Niryo.Press | niryo_controller.c:39-77 | definition of the steps move_digit(d) emits |
| Niryo.CharTrace | niryo_controller.c:241-248 | definition of one character's steps: press plus reference for a digit, nothing otherwise |
| Niryo.CharsTrace | niryo_controller.c:240-249 | definition of the character loop's steps, character by character |
| Niryo.TokenTrace | niryo_controller.c:236-253 | definition of one token's steps: its characters up to `strlen`, then confirm and reference |
| Niryo.TokensTrace | niryo_controller.c:234-257 | definition of the token loop's steps, token by token |
| Niryo.Trace | niryo_controller.c:198-262 | definition of the whole-run trace: setup, the tokens, home |
| Advanced.NumJ3 | niryo_advanced_controller.c:155 | the joint_3 vote targets, digit by digit |
| Advanced.NumJ2 | niryo_advanced_controller.c:156 | the joint_2 vote targets, digit by digit |
| Advanced.NumJ1 | niryo_advanced_controller.c:157 | the joint_1 vote targets, digit by digit |
| Advanced.BackJ2 | niryo_advanced_controller.c:158 | the joint_2 back-off targets, digit by digit |
| Advanced.T1 | niryo_advanced_controller.c:161 | the first sleep of each vote, as a float, digit by digit |
| Advanced.T2 | niryo_advanced_controller.c:162 | the second sleep of each vote, as a float, digit by digit |
| Advanced.T3 | niryo_advanced_controller.c:163 | the third sleep of each vote, as a float, digit by digit |
| Advanced.T4 | niryo_advanced_controller.c:164 | the fourth sleep of each vote, as a float, digit by digit |
| Advanced.DefinedPointSteps | niryo_advanced_controller.c:51-68 | definition of the steps DefinedPoint emits |
| Advanced.ConfirmVoteSteps | niryo_advanced_controller.c:71-93 | definition of the steps ConfirmVote emits |
| Advanced.InitialPositionSteps | niryo_advanced_controller.c:27-47 | definition of the steps InitialPosition emits |
| Advanced.CentralPointSteps | niryo_advanced_controller.c:137-152 | definition of the central-point steps at the start of main |
| Advanced.Controller.constructor | niryo_advanced_controller.c:123 | `handler = 0`: no handle looked up and nothing commanded |
| Advanced.VoteSteps | niryo_advanced_controller.c:96-118 | definition of the steps Vote emits for its arguments |
| Advanced.DigitSteps | niryo_advanced_controller.c:185-186 | definition of the Vote call for a digit: the tables at the digit, timings truncated |
| Advanced.CharTrace | niryo_advanced_controller.c:182-190 | definition of one character's steps: Vote plus DefinedPoint for a digit, nothing otherwise |
| Advanced.CharsTrace | niryo_advanced_controller.c:181-191 | definition of the `for (cont ...)` loop's steps |
| Advanced.SequenceTrace | niryo_advanced_controller.c:178-197 | definition of one sequence's steps: its characters up to `strlen`, then ConfirmVote and DefinedPoint |
| Advanced.SequencesTrace | niryo_advanced_controller.c:176-199 | definition of the token loop's steps, sequence by sequence |
| Advanced.Trace | niryo_advanced_controller.c:137-203 | definition of the whole-run trace: central point, the sequences, initial position |
| Arm.DigitOf | niryo_controller.c:241-243 | `c - '0'` passes the range test exactly when c is '0'..'9', and the digit it gives is c's value |
| Niryo.Controller.GetObjectHandle | niryo_controller.c:55-56 | looking up a joint's path leaves the handle naming that joint |
| Niryo.Controller.SetTargetAndSleep | niryo_controller.c:57-58 | one command on the current handle's joint plus its sleep appends exactly that one step to the log |
| Niryo.Controller.MoveDigit | niryo_controller.c:39-77 | move_digit(d) appends exactly Press(d): J3, J2, J1, J2 to numj3[d], numj2[d], numj1[d], backj2[d] with sleeps t1[d]..t4[d]; the handle ends on joint_2 |
| Niryo.Controller.MoveToHomePosition | niryo_controller.c:82-108 | appends exactly the four home steps, all targets zero |
| Niryo.Controller.MoveToReferencePoint | niryo_controller.c:113-133 | appends exactly the three reference-point steps |
| Niryo.Controller.ConfirmVote | niryo_controller.c:138-164 | appends exactly the four confirm steps |
| Niryo.Controller.SetUpInitialPosition | niryo_controller.c:198-215 | appends exactly the four setup steps; the second joint_3 command reuses the first lookup |
| Niryo.Controller.ProcessCharacter | niryo_controller.c:240-249 | one character appends press plus reference if it is a digit, leaving the handle on joint_3; any other character appends nothing and leaves the handle as it was |
| Niryo.Controller.ProcessSequence | niryo_controller.c:235-256 | one token of at most 9 bytes appends the steps of its characters up to `strlen`, then confirm and reference, leaving the handle on joint_3 |
| Niryo.Controller.Run | niryo_controller.c:198-262 | the whole run appends setup, every token's trace in order, then home, leaving the handle on joint_2 |
| NiryoProperties.PressShape | niryo_controller.c:41-76 | for d in 0..9 the press is 4 steps on J3, J2, J1, J2 with the table entries at d as targets and t1[d]..t4[d] as sleeps |
| NiryoProperties.ReferenceShape | niryo_controller.c:113-133 | the reference point is 3 steps: J2 to -PI/4 for 4000 ms, J1 to -PI/11 for 2000 ms, J3 to PI/45 for 2000 ms |
| NiryoProperties.ConfirmShape | niryo_controller.c:138-164 | confirm is J3, J2, J1, J2 sleeping 6000, 6000, 6000, 7000 ms |
| NiryoProperties.HomeShape | niryo_controller.c:82-108 | home is J3, J2, J1, J2, all targets zero, sleeping 3000, 15000, 3000, 2000 ms |
| NiryoProperties.SetupShape | niryo_controller.c:198-215 | setup is J3 to 0 for 1000 ms, J3 to PI/45 for 2000 ms, J2 to -PI/4 for 12000 ms, J1 to -PI/11 for 3000 ms |
| NiryoProperties.InvalidCharacterSkipped | niryo_controller.c:241-248 | a character emits no steps exactly when it is outside '0'..'9' |
| NiryoProperties.KeepDigits | niryo_controller.c:241-243 | removing invalid characters leaves a string no longer than the token, made only of digits |
| NiryoProperties.Digits | niryo_controller.c:241-243 | the digits that pass the range test number at most the token's characters and all lie in 0..9, so every table index is in range |
| NiryoProperties.CharsTraceAppend | niryo_controller.c:240-249 | the character loop's trace over a + b is the trace over a followed by the trace over b |
| NiryoProperties.CharsTraceIsDigitsTrace | niryo_controller.c:240-249 | the character loop emits press plus reference once for each valid digit, in order (against an independent per-digit definition) |
| NiryoProperties.DigitsOfKeepDigits | niryo_controller.c:241-243 | keeping only the digits does not change the digits that are found |
| NiryoProperties.InvalidCharactersIgnored | niryo_controller.c:241-248 | a token emits exactly what its characters up to `strlen`, with only the digits kept, emit |
| NiryoProperties.TokenTraceStructure | niryo_controller.c:240-253 | a token emits press plus reference for each valid digit before any NUL, then confirm plus reference, even with no valid digit |
| NiryoProperties.DigitsTraceLength | niryo_controller.c:240-249 | v digits emit 7v steps |
| NiryoProperties.TokenTraceLength | niryo_controller.c:240-253 | a token with v valid digits before any NUL emits 7v + 7 steps |
| NiryoProperties.ConfirmEveryToken | niryo_controller.c:251-253 | every token's trace ends with confirm followed by reference |
| NiryoProperties.TokensTraceAppend | niryo_controller.c:234-257 | the trace of tokens a + b is the trace of a followed by the trace of b |
| NiryoProperties.TraceNoTokens | niryo_controller.c:198-262 | with no tokens the run is setup followed by home |
| NiryoProperties.TraceLength | niryo_controller.c:198-262 | n tokens holding v valid digits in all (before their NULs) emit 7n + 7v token steps and 8 + 7n + 7v steps in the whole run |
| NiryoProperties.ExampleOneTwoThree | niryo_controller.c:240-253 | the token "123" emits press 1, reference, press 2, reference, press 3, reference, confirm, reference |
| NiryoProperties.ExampleInvalidCharacter | niryo_controller.c:241-248 | the token "1A2" emits what "12" emits |
| NiryoProperties.ExampleNulEndsToken | niryo_controller.c:236-240 | the token "1", NUL, "2" emits what "1" emits: 14 steps |
| NiryoProperties.ReferenceReachesReferencePose | niryo_controller.c:111-133 | from any pose the reference gesture commands the pose above digit 5: digit 5's joint_1, joint_2 and joint_3 table targets, where the first three steps of move_digit(5) put the arm |
| NiryoProperties.SetupReachesReferencePose | niryo_controller.c:197-215 | the setup differs from the reference gesture but commands the same pose from any start |
| NiryoProperties.HomeReachesZeroPose | niryo_controller.c:79-108 | from any pose the home gesture commands every joint to zero |
| NiryoProperties.TokenEndsAtReference | niryo_controller.c:251-253 | whatever a token holds, it leaves the arm commanded to the reference pose |
| NiryoProperties.EveryTokenStartsAtReference | niryo_controller.c:197-257 | after the setup and any number of tokens the commanded pose is the reference pose, so each token starts there |
| NiryoProperties.RunEndsAtHome | niryo_controller.c:261-262 | every run ends with all joints commanded to zero |
| Advanced.Truncate | niryo_advanced_controller.c:186 | `(int)` truncates toward zero: the result's magnitude is the whole part of the float's, and a whole-number float is kept exactly |
| Advanced.VoteShape | niryo_advanced_controller.c:96-118 | Vote's steps are J3, J2, J1, J2 with its four targets and four sleeps taken from its arguments in order |
| Advanced.InvalidCharacterSkipped | niryo_advanced_controller.c:182-190 | a character emits no steps exactly when it is outside '0'..'9' |
| Advanced.Controller.GetObjectHandle | niryo_advanced_controller.c:137-138 | looking up a joint's path leaves the handle naming that joint |
| Advanced.Controller.SetTargetAndSleep | niryo_advanced_controller.c:139-140 | one command on the current handle's joint plus its sleep appends exactly that one step |
| Advanced.Controller.InitialPosition | niryo_advanced_controller.c:27-47 | appends exactly the four all-zero steps |
| Advanced.Controller.DefinedPoint | niryo_advanced_controller.c:51-68 | appends exactly the three defined-point steps |
| Advanced.Controller.ConfirmVote | niryo_advanced_controller.c:71-93 | appends exactly the four confirm steps |
| Advanced.Controller.Vote | niryo_advanced_controller.c:96-118 | appends four steps J3, J2, J1, J2 using exactly its arguments in order; the handle ends on joint_2 |
| Advanced.Controller.SetCentralPoint | niryo_advanced_controller.c:136-152 | appends exactly the four central-point steps |
| Advanced.Controller.ProcessCharacter | niryo_advanced_controller.c:182-190 | a digit calls Vote with its table entries (timings truncated) and returns to the defined point, leaving the handle on joint_3; any other character appends nothing and leaves the handle as it was |
| Advanced.Controller.ProcessSequence | niryo_advanced_controller.c:177-198 | the loop leaves `cont == len`, so every sequence of at most 9 bytes appends the steps of its characters up to `strlen`, then ConfirmVote and DefinedPoint, leaving the handle on joint_3 |
| Advanced.Controller.Run | niryo_advanced_controller.c:137-203 | the whole run appends the central point, every sequence's trace in order, then the initial position, leaving the handle on joint_2 |
| Equivalence.TablesAgree | niryo_advanced_controller.c:155-164 | the angle tables equal niryo_controller.c's, and every float timing cast to int equals niryo_controller.c's int timing |
| Equivalence.VoteIsMoveDigit | niryo_advanced_controller.c:185-186 | for d in 0..9 the Vote call emits exactly what move_digit(d) emits |
| Equivalence.GesturesAgree | niryo_advanced_controller.c:27-93 | DefinedPoint, ConfirmVote and InitialPosition emit the reference, confirm and home gestures of niryo_controller.c |
| Equivalence.CentralPointIsSetup | niryo_advanced_controller.c:137-152 | the central-point block is niryo_controller.c's setup, step for step |
| Equivalence.CharsTraceAgree | niryo_advanced_controller.c:181-191 | the two character loops emit the same steps for every string |
| Equivalence.SequencesTraceAgree | niryo_advanced_controller.c:176-199 | the two token loops emit the same steps for every token list |
| Equivalence.SameTrace | niryo_advanced_controller.c:137-203 | for every token list the two programs' whole-run traces are equal |
| Equivalence.RunBoth | niryo_advanced_controller.c:120-209 | running both controllers on the same tokens logs the same steps, and these are niryo_controller.c's trace |

## Left out

- Connection handling: `simxStart`, `simxFinish`, `initialize_connection` and the connect-failure exit. The two files return different statuses on a failed connection (1 and 0). The model starts after a successful connection.
- Handle lookup: the joint path strings copied into `handlerName` and the call `simxGetObjectHandle` are foreign calls. The handle is modelled as the joint it names, and a lookup always succeeds.
- Real sleeping: `extApi_sleepMs` blocks. Only the duration is recorded in each step.
- Float numerics: `PI` is defined as 3.14 and targets are cast to `simxFloat`. Targets are kept as exact coefficients of pi, and rounding is not modelled.
- File handling: `fopen`, `fscanf`, the `feof` loop and `fclose`. The input is the list of tokens `fscanf` would return. The extra loop turn at end of file, in which `fscanf` returns no token, emits nothing and is not modelled.
- The failure to open the file: `exit(1)` is called after the setup moves have been sent. It is not modelled.
- Niryo.Controller.ProcessSequence, Niryo.Controller.Run, Advanced.Controller.ProcessSequence, Advanced.Controller.Run: a token is a C byte string, and the model has no byte encoding. A character stands for one byte, so these methods require each character to be below 256. A token longer than 9 bytes overflows `number`, which is undefined behaviour in C, so they also require every token to fit (`TokenFits`, `FitsBuffer`). A multi-byte character or an overlong token is not modelled.
- `printf` logging, including the warning for an invalid character.
- Physics and joint convergence: no joint position is ever read back. A pose in the model is what was commanded, not where the arm is.

/** MeetMe: taking down a conference that is being recorded.

    conf_free and the recorder thread share the recording flag, which the recorder reads and writes
    without the lock.  A state holds the flag, the owner of conflock and where each of the two threads is;
    a third party stands for every other thread that takes the lock. */
module MeetMeRecorder {

  datatype Flag = Off | Active | Terminate

  datatype Owner = Nobody | Freer | Recorder | Other

  /** Where conf_free is: testing for a recording, marking it for termination, giving the lock back,
      then taking the lock, testing the flag and giving the lock back again until it reads Off. */
  datatype FreerAt = Check | Mark | Unlock | Lock | Test | Release | Reclaim | Freed

  /** Where the recorder is: waiting for and reading a frame, looking at the flag, passing through the
      lock, writing Off, and done with the conference. */
  datatype RecorderAt = Waiting | Reading | Looking | Grabbing | Passing | Finishing | Gone

  datatype State = State(flag: Flag, owner: Owner, f: FreerAt, r: RecorderAt)

  /** conf_free is called with the lock held, for a recorder that has set the flag and may have gone. */
  predicate Init(s: State) {
    && s.owner == Freer && s.f == Check
    && (s.r == Waiting || s.r == Reading || s.r == Looking || s.r == Finishing || s.r == Gone)
    && s.flag == if s.r == Gone then Off else Active
  }

  /** The recorder touches the conference in every one of these places. */
  predicate Uses(r: RecorderAt) {
    r == Waiting || r == Reading || r == Looking || r == Finishing
  }

  predicate FreerStep(s: State, s': State) {
    match s.f
    case Check => s' == s.(f := if s.flag == Active then Mark else Reclaim)
    case Mark => s' == s.(f := Unlock, flag := Terminate)
    case Unlock => s' == s.(f := Lock, owner := Nobody)
    case Lock => s.owner == Nobody && s' == s.(f := Test, owner := Freer)
    case Test => s' == s.(f := if s.flag == Off then Reclaim else Release)
    case Release => s' == s.(f := Lock, owner := Nobody)
    case Reclaim => s' == s.(f := Freed)
    case Freed => false
  }

  predicate RecorderStep(s: State, s': State) {
    match s.r
    case Waiting => s' == s.(r := Reading) || s' == s.(r := Finishing)
    case Reading => s' == s.(r := Looking) || s' == s.(r := Finishing)
    case Looking => s' == s.(r := if s.flag == Terminate then Grabbing else Waiting)
    case Grabbing => s.owner == Nobody && s' == s.(r := Passing, owner := Recorder)
    case Passing => s' == s.(r := Finishing, owner := Nobody)
    case Finishing => s' == s.(r := Gone, flag := Off)
    case Gone => false
  }

  predicate OtherStep(s: State, s': State) {
    (s.owner == Nobody && s' == s.(owner := Other)) || (s.owner == Other && s' == s.(owner := Nobody))
  }

  predicate Next(s: State, s': State) {
    FreerStep(s, s') || RecorderStep(s, s') || OtherStep(s, s')
  }

  /** A run: each state follows from the one before it. */
  ghost predicate IsRun(run: seq<State>) {
    run != [] && forall i :: 0 <= i < |run| - 1 ==> Next(run[i], run[i + 1])
  }

  // ---- Safety ----

  /** While the recorder is there the flag is not Off; the lock is where the threads say; and conf_free
      reaches for the memory only when the recorder has gone. */
  predicate Inv(s: State) {
    && (s.r != Gone ==> s.flag != Off)
    && (s.f == Reclaim || s.f == Freed ==> s.r == Gone)
    && (s.owner == Freer <==> s.f != Lock)
    && (s.owner == Recorder <==> s.r == Passing)
    && (s.r == Grabbing || s.r == Passing ==> s.flag == Terminate)
    && (s.f == Check ==> (s.flag == if s.r == Gone then Off else Active))
    && (s.f == Mark && s.r != Gone ==> s.flag == Active)
    && (s.f != Check && s.f != Mark && s.r != Gone ==> s.flag == Terminate)
    && (s.r == Gone && s.f != Check ==> s.flag != Active)
  }

  lemma {:induction false} RunKeepsInv(run: seq<State>, i: nat)
    requires IsRun(run) && Init(run[0]) && i < |run|
    ensures Inv(run[i])
  {
    if i == 0 {
    } else {
      RunKeepsInv(run, i - 1);
      assert Next(run[i - 1], run[i - 1 + 1]);
    }
  }

  /** In every interleaving, once the conference is being reclaimed the recorder is past its last use. */
  lemma NeverFreedInUse(run: seq<State>, i: nat)
    requires IsRun(run) && Init(run[0]) && i < |run|
    ensures run[i].f == Reclaim || run[i].f == Freed ==> run[i].r == Gone && !Uses(run[i].r)
  {
    RunKeepsInv(run, i);
  }

  // ---- When conf_free can finish at all ----

  /** The recorder has gone, and its Off was or is about to be overwritten. */
  predicate Lost(s: State) {
    s.r == Gone && s.f != Reclaim && s.f != Freed && (s.flag == Terminate || s.f == Mark)
  }

  ghost predicate CanFree(s: State) {
    exists run: seq<State> :: IsRun(run) && run[0] == s && run[|run| - 1].f == Freed
  }

  lemma {:induction false} LostForever(run: seq<State>, i: nat)
    requires IsRun(run) && Inv(run[0]) && Lost(run[0]) && i < |run|
    ensures Lost(run[i]) && Inv(run[i])
  {
    if i == 0 {
    } else {
      LostForever(run, i - 1);
      assert Next(run[i - 1], run[i - 1 + 1]);
    }
  }

  /** A step that brings conf_free nearer its end, when its flag is not lost. */
  function Forward(s: State): State {
    match s.f
    case Check => s.(f := if s.flag == Active then Mark else Reclaim)
    case Mark => s.(f := Unlock, flag := Terminate)
    case Unlock => s.(f := Lock, owner := Nobody)
    case Test => s.(f := if s.flag == Off then Reclaim else Release)
    case Release => s.(f := Lock, owner := Nobody)
    case Reclaim => s.(f := Freed)
    case Freed => s
    case Lock =>
      if s.owner == Other then s.(owner := Nobody)
      else if s.flag == Off then s.(f := Test, owner := Freer)
      else match s.r
        case Waiting => s.(r := Finishing)
        case Reading => s.(r := Finishing)
        case Looking => s.(r := Grabbing)
        case Grabbing => s.(r := Passing, owner := Recorder)
        case Passing => s.(r := Finishing, owner := Nobody)
        case _ => s.(r := Gone, flag := Off)
  }

  function Distance(s: State): nat {
    var recorder := match s.r
      case Gone => 0 case Finishing => 1 case Passing => 2 case Waiting => 2
      case Reading => 2 case Grabbing => 3 case Looking => 4;
    var waiting := if s.owner == Other then 1 else 0;
    match s.f
    case Check => 100 case Mark => 90 case Unlock => 80 case Reclaim => 1 case Freed => 0
    case Test => if s.flag == Off then 3 else 22 + 4 * recorder
    case Release => if s.flag == Off then 8 else 21 + 4 * recorder
    case Lock => if s.flag == Off then 5 + waiting else 20 + 4 * recorder + waiting
  }

  lemma ForwardStep(s: State)
    requires Inv(s) && !Lost(s) && s.f != Freed
    ensures Next(s, Forward(s)) && Inv(Forward(s)) && !Lost(Forward(s)) && Distance(Forward(s)) < Distance(s)
  {
  }

  lemma {:induction false} WayToFreed(s: State) returns (run: seq<State>)
    requires Inv(s) && !Lost(s)
    ensures IsRun(run) && run[0] == s && run[|run| - 1].f == Freed
    decreases Distance(s)
  {
    if s.f == Freed {
      run := [s];
    } else {
      ForwardStep(s);
      var rest := WayToFreed(Forward(s));
      run := [s] + rest;
      forall i | 0 <= i < |run| - 1 ensures Next(run[i], run[i + 1]) {
        if i > 0 { assert Next(rest[i - 1], rest[i - 1 + 1]); }
      }
    }
  }

  /** From any state a run can reach, conf_free can still finish exactly when the recorder's Off has not
      been overwritten by Terminate: the test for a recording and the mark are two steps, and the
      recorder may go in between. */
  lemma CanFreeIff(run: seq<State>, i: nat)
    requires IsRun(run) && Init(run[0]) && i < |run|
    ensures CanFree(run[i]) <==> !Lost(run[i])
  {
    RunKeepsInv(run, i);
    if Lost(run[i]) {
      forall way: seq<State> | IsRun(way) && way[0] == run[i] ensures way[|way| - 1].f != Freed {
        LostForever(way, |way| - 1);
      }
    } else {
      var way := WayToFreed(run[i]);
    }
  }

  /** The loss does happen. */
  lemma LossHappens()
    ensures exists run: seq<State> :: IsRun(run) && Init(run[0]) && Lost(run[|run| - 1])
  {
    var s := State(Active, Freer, Check, Finishing);
    var run := [s, s.(f := Mark), s.(f := Mark, r := Gone, flag := Off), s.(f := Unlock, r := Gone, flag := Terminate)];
    assert IsRun(run);
  }
}

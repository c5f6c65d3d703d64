/** MeetMe: when a participant who is not an admin may talk.

    conf_run goes round a loop; each pass reacts to marked users coming and going, enforces what admins
    have set, and obeys the menu.  The admin flags are in the participant's record, which other threads
    change at any moment, so a pass sees them once when it enforces them and once more when a menu key is
    pressed. */
module MeetMeMute {
  import opened Common
  import Users = MeetMeUsers

  /** The options a participant came in with that never change. */
  datatype Options = Options(waitMarked: bool, markedExit: bool, moh: bool)

  /** The conference mode set on the device, the two options the menu changes, and the loop's memory. */
  datatype Part = Part(talker: bool, listener: bool, monitor: bool, talkOnly: bool, onHold: bool, lastMarked: nat)

  /** What one pass sees: marked users, whether the participant is alone, the admin flags when they are
      enforced, and a menu key with the mute flag as it is by then. */
  datatype Env = Env(marked: nat, alone: bool, muted: bool, kicked: bool, key: Option<char>, mutedAtKey: bool)

  /** The mode a participant is given on entry, by its options alone. */
  function Placed(p: Part): Part {
    p.(talker := !p.monitor, listener := p.monitor || !p.talkOnly)
  }

  predicate Leaves(o: Options, p: Part, e: Env) {
    (e.marked == 0 && p.lastMarked != 0 && o.markedExit) || e.kicked
  }

  // ---- What a pass amounts to ----

  /** Waiting for a marked user, and music for one who is alone. */
  function AfterMarked(o: Options, p: Part, e: Env): Part {
    if o.waitMarked then
      if e.marked == 0 then
        var quiet := p.lastMarked != 0 || p.onHold || !o.moh;
        p.(talker := p.talker && !quiet, listener := p.listener && !quiet, onHold := p.onHold || o.moh)
      else if p.lastMarked == 0 then Placed(p).(onHold := p.onHold && !o.moh)
      else p
    else if o.moh then p.(onHold := e.alone)
    else p
  }

  /** The enforced mode: nobody muted talks, and everybody else who is not a listener does. */
  function AfterCheck(p: Part, e: Env): Part {
    p.(talker := !e.muted && (!p.monitor || p.talker))
  }

  /** Menu key 1 turns talking off, or on again for one who is not muted. */
  function AfterKey(p: Part, e: Env): Part {
    if e.key != Some('1') then p
    else if p.talker then p.(talker := false, listener := true, monitor := true, talkOnly := true)
    else if e.mutedAtKey then p
    else p.(talker := true, listener := true, monitor := !p.monitor, talkOnly := !p.talkOnly)
  }

  function Passed(o: Options, p: Part, e: Env): Part {
    AfterKey(AfterCheck(AfterMarked(o, p, e), e), e).(lastMarked := e.marked)
  }

  /** Reacts to marked users; false when the participant leaves with the last of them. */
  method WatchMarked(o: Options, p0: Part, e: Env) returns (p: Part, stays: bool)
    ensures stays == !(e.marked == 0 && p0.lastMarked != 0 && o.markedExit)
    ensures stays ==> p == AfterMarked(o, p0, e)
  {
    p, stays := p0, false;
    if o.waitMarked {
      if e.marked == 0 {
        if p.lastMarked != 0 {
          if o.markedExit { return; }
          p := p.(talker := false, listener := false);
        }
        if !p.onHold && o.moh {
          p := p.(onHold := true);
        } else {
          p := p.(talker := false, listener := false);
        }
      } else if e.marked >= 1 && p.lastMarked == 0 {
        if p.monitor {
          p := p.(talker := false, listener := true);
        } else if p.talkOnly {
          p := p.(talker := true, listener := false);
        } else {
          p := p.(talker := true, listener := true);
        }
        if p.onHold && o.moh { p := p.(onHold := false); }
      }
    } else if o.moh {
      if e.alone {
        if !p.onHold { p := p.(onHold := true); }
      } else if p.onHold {
        p := p.(onHold := false);
      }
    }
    stays := !(e.marked == 0 && p.lastMarked != 0 && o.markedExit);
  }

  /** Enforces the admin flags; false when the participant was kicked. */
  method Enforce(p0: Part, e: Env) returns (p: Part, stays: bool)
    ensures p == AfterCheck(p0, e) && stays == !e.kicked
  {
    p, stays := p0, true;
    if e.muted || e.kicked {
      if e.muted && p.talker { p := p.(talker := false); }
      if !e.muted && !p.monitor && !p.talker { p := p.(talker := true); }
      if e.kicked { stays := false; }
    } else if !p.monitor && !p.talker {
      p := p.(talker := true);
    }
  }

  /** Key 1 pressed twice by one who is not muted brings everything back exactly when the participant hears
      the conference and is not down for talking only while talking, or is while not. */
  lemma MenuTwiceIff(p: Part, e: Env)
    requires p.talker != p.monitor && e.key == Some('1') && !e.mutedAtKey
    ensures AfterKey(p, e).talker == !p.talker && AfterKey(AfterKey(p, e), e).talker == p.talker
    ensures AfterKey(AfterKey(p, e), e) == p <==> p.listener && p.talkOnly == p.monitor
  {
  }

  /** The user menu. */
  method UserMenu(p0: Part, e: Env) returns (p: Part)
    ensures p == AfterKey(p0, e)
  {
    p := p0;
    if e.key == Some('1') {
      if p.talker {
        p := p.(talker := false, listener := true, monitor := true, talkOnly := true);
      } else if !e.mutedAtKey {
        p := p.(talker := true, listener := true, monitor := !p.monitor, talkOnly := !p.talkOnly);
      }
    }
  }

  /** One pass of the loop of conf_run, for a participant who is not an admin. */
  method LoopPass(o: Options, p0: Part, e: Env) returns (p: Part, stays: bool)
    ensures stays == !Leaves(o, p0, e)
    ensures stays ==> p == Passed(o, p0, e)
  {
    p, stays := WatchMarked(o, p0, e);
    if !stays { return; }
    p, stays := Enforce(p, e);
    if !stays { return; }
    p := UserMenu(p, e);
    p := p.(lastMarked := e.marked);
  }

  /** Talking and being down as a listener exclude each other. */
  predicate Consistent(p: Part) {
    p.talker ==> !p.monitor
  }

  // ---- Interleavings ----

  /** What one thread does next: another one gives a command of MeetMeAdmin, to this participant by number
      or not, or the participant's own thread begins a pass with the check, ends it with the menu, or starts
      over because the channel's descriptor was swapped. */
  datatype Act =
    | Other(cmd: char, named: bool, isLast: bool)
    | Check(marked: nat, alone: bool)
    | Key(key: Option<char>)
    | StartOver

  /** The participant, its shared record, and where its thread is: within a pass, for which it has seen so
      many marked users, or gone.  `seen` is the mute flag as the last check read it. */
  datatype Sys = Sys(p: Part, user: Users.User, inPass: bool, passMarked: nat, seen: bool, gone: bool)

  function EnvOf(user: Users.User, marked: nat, alone: bool): Env {
    Env(marked, alone, user.muted, user.kicked, None, false)
  }

  function Begun(o: Options, s: Sys, marked: nat, alone: bool): Sys {
    var e := EnvOf(s.user, marked, alone);
    if s.inPass || s.gone then s
    else if Leaves(o, s.p, e) then s.(gone := true)
    else s.(p := AfterCheck(AfterMarked(o, s.p, e), e), inPass := true, passMarked := marked, seen := s.user.muted)
  }

  function Ended(s: Sys, key: Option<char>): Sys {
    var e := Env(s.passMarked, false, s.seen, false, key, s.user.muted);
    if !s.inPass then s else s.(p := AfterKey(s.p, e).(lastMarked := s.passMarked), inPass := false)
  }

  function Stepped(o: Options, s: Sys, act: Act): Sys {
    match act
    case Other(cmd, named, isLast) => s.(user := Users.Commanded(cmd, s.user, named, isLast))
    case Check(marked, alone) => Begun(o, s, marked, alone)
    case Key(key) => Ended(s, key)
    case StartOver => if !s.inPass then s else s.(p := Placed(s.p), inPass := false)
  }

  /** The state after the first n acts of a run. */
  function At(o: Options, s: Sys, run: seq<Act>, n: nat): Sys
    requires n <= |run|
  {
    if n == 0 then s else Stepped(o, At(o, s, run, n - 1), run[n - 1])
  }

  /** The acts from i up to j are other threads', or none of this thread's that end a pass. */
  predicate Within(run: seq<Act>, i: nat, j: nat)
    requires j <= |run|
  {
    forall k :: i <= k < j ==> !run[k].Key? && run[k] != StartOver
  }

  /** The command lifts this participant's mute. */
  predicate Unmutes(act: Act) {
    act.Other? && (act.cmd == 'n' || (act.cmd == 'm' && act.named))
  }

  /** Within a pass only the shared record changes, and a mute lasts until a command lifts it. */
  lemma {:induction false} PassHolds(o: Options, s: Sys, run: seq<Act>, i: nat, j: nat)
    requires i <= j <= |run| && At(o, s, run, i).inPass && Within(run, i, j)
    ensures var (before, after) := (At(o, s, run, i), At(o, s, run, j));
            after == before.(user := after.user)
    ensures At(o, s, run, i).user.muted && !At(o, s, run, j).user.muted ==> exists k :: i <= k < j && Unmutes(run[k])
    decreases j - i
  {
    if i == j {
    } else {
      PassHolds(o, s, run, i, j - 1);
      assert !run[j - 1].Key? && run[j - 1] != StartOver;
      if At(o, s, run, j - 1).user.muted && !At(o, s, run, j).user.muted { assert Unmutes(run[j - 1]); }
    }
  }

  lemma CheckThenKey(o: Options, s: Sys, marked: nat, alone: bool, user: Users.User, key: Option<char>)
    requires !s.inPass && Begun(o, s, marked, alone).inPass
    ensures var e := Env(marked, alone, s.user.muted, s.user.kicked, key, user.muted);
            !Leaves(o, s.p, e) && Ended(Begun(o, s, marked, alone).(user := user), key).p == Passed(o, s.p, e)
  {
    var e := Env(marked, alone, s.user.muted, s.user.kicked, key, user.muted);
    assert AfterMarked(o, s.p, e) == AfterMarked(o, s.p, EnvOf(s.user, marked, alone));
  }

  /** A check, whatever other threads do after it, and the menu make one pass of the loop, which sees the
      flags as they are at the check and at the key. */
  lemma PassIsLoop(o: Options, s: Sys, run: seq<Act>, c: nat, e: nat)
    requires c < e < |run| && run[c].Check? && run[e].Key? && Within(run, c + 1, e)
    requires !At(o, s, run, c).inPass && At(o, s, run, c + 1).inPass
    ensures var (before, user) := (At(o, s, run, c), At(o, s, run, e).user);
            var env := Env(run[c].marked, run[c].alone, before.user.muted, before.user.kicked, run[e].key, user.muted);
            !Leaves(o, before.p, env) && At(o, s, run, e + 1).p == Passed(o, before.p, env)
  {
    PassHolds(o, s, run, c + 1, e);
    CheckThenKey(o, At(o, s, run, c), run[c].marked, run[c].alone, At(o, s, run, e).user, run[e].key);
  }

  /** A pass of the participant's own thread: its check is act c, and act e ends it, with the menu or because
      the thread starts over. */
  predicate IsPass(o: Options, s: Sys, run: seq<Act>, c: nat, e: nat) {
    && c < e < |run| && run[c].Check? && (run[e].Key? || run[e] == StartOver) && Within(run, c + 1, e)
    && !At(o, s, run, c).inPass && At(o, s, run, c + 1).inPass
  }

  /** Whether one talks after a step that ends a pass. */
  lemma EndTalks(o: Options, s: Sys, act: Act)
    requires s.inPass && (act.Key? || act == StartOver)
    ensures Stepped(o, s, act).p.talker <==>
      if act == StartOver then !s.p.monitor
      else if act == Key(Some('1')) then !s.p.talker && !s.user.muted
      else s.p.talker
  {
  }

  lemma CheckTalks(o: Options, s: Sys, marked: nat, alone: bool)
    requires !s.inPass && Begun(o, s, marked, alone).inPass
    ensures Begun(o, s, marked, alone).p.monitor == s.p.monitor
    ensures s.user.muted ==> !Begun(o, s, marked, alone).p.talker
  {
  }

  /** In every interleaving, one muted at the check of a pass talks at its end in exactly two cases: the thread
      starts over and the participant is not down as a listener, for then the mode is set by the options
      alone; or key 1 is pressed when the mute is not on any more, and then a command in between has lifted
      it. */
  lemma MutedTalksIff(o: Options, s: Sys, run: seq<Act>, c: nat, e: nat)
    requires IsPass(o, s, run, c, e) && At(o, s, run, c).user.muted
    ensures At(o, s, run, e + 1).p.talker <==>
      if run[e] == StartOver then !At(o, s, run, c).p.monitor
      else run[e] == Key(Some('1')) && !At(o, s, run, e).user.muted
    ensures !At(o, s, run, e).user.muted ==> exists k :: c < k < e && Unmutes(run[k])
  {
    CheckTalks(o, At(o, s, run, c), run[c].marked, run[c].alone);
    PassHolds(o, s, run, c + 1, e);
    EndTalks(o, At(o, s, run, e), run[e]);
  }

  /** So one who talks at the end of a pass was not muted at its check, or a command in between lifted the
      mute, or the thread started over. */
  lemma MutedDoesNotTalk(o: Options, s: Sys, run: seq<Act>, c: nat, e: nat)
    requires IsPass(o, s, run, c, e)
    ensures At(o, s, run, e + 1).p.talker ==>
      || !At(o, s, run, c).user.muted
      || (run[e] == StartOver && !At(o, s, run, c).p.monitor)
      || exists k :: c < k < e && Unmutes(run[k])
  {
    if At(o, s, run, c).user.muted { MutedTalksIff(o, s, run, c, e); }
  }

  /** The first exception is real: when the channel's descriptor is swapped after the check, one who is muted,
      and whom no command has unmuted, talks until the next check. */
  lemma SwappedInPass(o: Options, p: Part, user: Users.User)
    requires user.muted && !user.kicked && !p.monitor && p.lastMarked == 0
    ensures var run := [Check(0, false), StartOver];
            var q := At(o, Sys(p, user, false, 0, false, false), run, 2);
            q.p.talker && q.user.muted && !q.inPass
  {
    var run := [Check(0, false), StartOver];
    var s := Sys(p, user, false, 0, false, false);
    assert At(o, s, run, 1) == Stepped(o, s, run[0]);
    assert At(o, s, run, 2) == Stepped(o, At(o, s, run, 1), run[1]);
  }

  /** So is the second: with the mute lifted between the check and key 1, one muted at the check talks at the
      end of the pass, and is down as a listener at the same time. */
  lemma LiftedInPass(o: Options, p: Part, user: Users.User)
    requires user.muted && !user.kicked && !p.monitor && !o.waitMarked && p.lastMarked == 0
    ensures var run := [Check(0, false), Other('n', false, false), Key(Some('1'))];
            var q := At(o, Sys(p, user, false, 0, false, false), run, 3).p;
            q.talker && q.monitor
  {
    var run := [Check(0, false), Other('n', false, false), Key(Some('1'))];
    var s := Sys(p, user, false, 0, false, false);
    assert At(o, s, run, 1) == Stepped(o, s, run[0]);
    assert At(o, s, run, 2) == Stepped(o, At(o, s, run, 1), run[1]);
    assert At(o, s, run, 3) == Stepped(o, At(o, s, run, 2), run[2]);
  }

  /** Waiting for a marked user is meant to keep one from talking and hearing.  The mode is taken away, but the
      check of the same pass gives the talking back: one who waits talks exactly when neither muted nor down
      as a listener, and hears only in the pass in which the music begins. */
  lemma WaitingTalksIff(o: Options, s: Sys, run: seq<Act>, c: nat)
    requires c < |run| && run[c].Check? && run[c].marked == 0 && o.waitMarked
    requires !At(o, s, run, c).inPass && At(o, s, run, c + 1).inPass && Consistent(At(o, s, run, c).p)
    ensures At(o, s, run, c + 1).p.talker <==> !At(o, s, run, c).user.muted && !At(o, s, run, c).p.monitor
    ensures At(o, s, run, c + 1).p.listener <==>
      var p := At(o, s, run, c).p; p.listener && p.lastMarked == 0 && o.moh && !p.onHold
  {
    WaitingStep(o, At(o, s, run, c), run[c].alone);
  }

  lemma WaitingStep(o: Options, s: Sys, alone: bool)
    requires !s.inPass && Begun(o, s, 0, alone).inPass && o.waitMarked && Consistent(s.p)
    ensures var q := Begun(o, s, 0, alone).p;
            && (q.talker <==> !s.user.muted && !s.p.monitor)
            && (q.listener <==> s.p.listener && s.p.lastMarked == 0 && o.moh && !s.p.onHold)
  {
  }

  /** A participant without marked company, muted or restricted by nobody, does talk. */
  lemma WaiterTalks(o: Options, user: Users.User)
    requires o.waitMarked && !user.muted && !user.kicked
    ensures var p := Part(false, false, false, false, false, 0);
            At(o, Sys(p, user, false, 0, false, false), [Check(0, false)], 1).p.talker
  {
    var s := Sys(Part(false, false, false, false, false, 0), user, false, 0, false, false);
    assert At(o, s, [Check(0, false)], 1) == Stepped(o, s, Check(0, false));
  }

  predicate NoKeyOne(run: seq<Act>, n: nat)
    requires n <= |run|
  {
    forall i :: 0 <= i < n ==> run[i] != Key(Some('1'))
  }

  /** One who has stopped talking and is down as a listener stays so until the menu is used, whatever
      admins and marked users do. */
  lemma {:induction false} SelfMuteLasts(o: Options, s: Sys, run: seq<Act>, n: nat)
    requires n <= |run| && s.p.monitor && !s.p.talker && NoKeyOne(run, n)
    ensures At(o, s, run, n).p.monitor && !At(o, s, run, n).p.talker
  {
    if n == 0 {
    } else {
      SelfMuteLasts(o, s, run, n - 1);
      SelfMuteStep(o, At(o, s, run, n - 1), run[n - 1]);
    }
  }

  lemma SelfMuteStep(o: Options, s: Sys, act: Act)
    requires s.p.monitor && !s.p.talker && act != Key(Some('1'))
    ensures Stepped(o, s, act).p.monitor && !Stepped(o, s, act).p.talker
  {
  }

  // ---- When talking and listening stay apart ----

  /** All there is to know without the conference mode: the flags, the marked users, and whether the
      participant is down as a listener. */
  datatype Outside = Outside(
    user: Users.User, lastMarked: nat, monitor: bool, inPass: bool, passMarked: nat, seen: bool, gone: bool)

  function OutsideOf(s: Sys): Outside {
    Outside(s.user, s.p.lastMarked, s.p.monitor, s.inPass, s.passMarked, s.seen, s.gone)
  }

  /** Key 1 puts one who may talk down as a listener, and takes a listener off unless muted by then. */
  function Turned(x: Outside): bool {
    if !x.monitor then !x.seen || !x.user.muted else x.user.muted
  }

  predicate Goes(o: Options, x: Outside, marked: nat) {
    (marked == 0 && x.lastMarked != 0 && o.markedExit) || x.user.kicked
  }

  function OutsideNext(o: Options, x: Outside, act: Act): Outside {
    match act
    case Other(cmd, named, isLast) => x.(user := Users.Commanded(cmd, x.user, named, isLast))
    case Check(marked, _) =>
      if x.inPass || x.gone then x
      else if Goes(o, x, marked) then x.(gone := true)
      else x.(inPass := true, passMarked := marked, seen := x.user.muted)
    case Key(key) =>
      if !x.inPass then x
      else x.(monitor := if key == Some('1') then Turned(x) else x.monitor, lastMarked := x.passMarked, inPass := false)
    case StartOver => if !x.inPass then x else x.(inPass := false)
  }

  function OutsideAt(o: Options, x: Outside, run: seq<Act>, n: nat): Outside
    requires n <= |run|
  {
    if n == 0 then x else OutsideNext(o, OutsideAt(o, x, run, n - 1), run[n - 1])
  }

  /** Key 1, by one not down as a listener, between a mute being lifted and the next check. */
  predicate Crosses(x: Outside, act: Act) {
    act == Key(Some('1')) && x.inPass && x.seen && !x.user.muted && !x.monitor
  }

  predicate CrossesAt(o: Options, x: Outside, run: seq<Act>, k: nat)
    requires k < |run|
  {
    Crosses(OutsideAt(o, x, run, k), run[k])
  }

  /** Within a pass the mode is what the check made it. */
  predicate Settled(s: Sys) {
    Consistent(s.p) && (s.inPass ==> (s.p.talker <==> !s.seen && !s.p.monitor))
  }

  lemma StepSettled(o: Options, s: Sys, act: Act)
    requires Settled(s)
    ensures Consistent(Stepped(o, s, act).p) <==> !Crosses(OutsideOf(s), act)
    ensures !Crosses(OutsideOf(s), act) ==>
      Settled(Stepped(o, s, act)) && OutsideOf(Stepped(o, s, act)) == OutsideNext(o, OutsideOf(s), act)
  {
  }

  predicate ConsistentAt(o: Options, s: Sys, run: seq<Act>, n: nat)
    requires n <= |run|
  {
    Consistent(At(o, s, run, n).p)
  }

  lemma {:induction false} StaysSettled(o: Options, s: Sys, run: seq<Act>, n: nat)
    requires n <= |run| && Settled(s)
    requires (forall k :: 0 <= k < n ==> !CrossesAt(o, OutsideOf(s), run, k))
             || (forall k :: 0 <= k <= n ==> ConsistentAt(o, s, run, k))
    ensures Settled(At(o, s, run, n)) && OutsideOf(At(o, s, run, n)) == OutsideAt(o, OutsideOf(s), run, n)
  {
    if n == 0 {
    } else {
      StaysSettled(o, s, run, n - 1);
      var crosses, apart := CrossesAt(o, OutsideOf(s), run, n - 1), ConsistentAt(o, s, run, n);
      StepSettled(o, At(o, s, run, n - 1), run[n - 1]);
    }
  }

  /** A run keeps talking and being down as a listener apart throughout exactly when nobody's acts make key 1
      fall between a mute being lifted and the next check, for one not down as a listener then. */
  lemma RunConsistentIff(o: Options, s: Sys, run: seq<Act>, n: nat)
    requires n <= |run| && Settled(s)
    ensures (forall k :: 0 <= k <= n ==> ConsistentAt(o, s, run, k))
            <==> (forall k :: 0 <= k < n ==> !CrossesAt(o, OutsideOf(s), run, k))
  {
    if forall k :: 0 <= k <= n ==> ConsistentAt(o, s, run, k) {
      forall k | 0 <= k < n ensures !CrossesAt(o, OutsideOf(s), run, k) {
        StaysSettled(o, s, run, k);
        StepSettled(o, At(o, s, run, k), run[k]);
        assert ConsistentAt(o, s, run, k + 1);
      }
    }
    if forall k :: 0 <= k < n ==> !CrossesAt(o, OutsideOf(s), run, k) {
      forall k | 0 <= k <= n ensures ConsistentAt(o, s, run, k) { StaysSettled(o, s, run, k); }
    }
  }

  // ---- Hearing and music ----

  /** One whose thread starts over within a pass is placed by the options alone: it talks unless down as a
      listener, and hears unless down for talking only. */
  lemma StartOverPlaces(o: Options, s: Sys, run: seq<Act>, c: nat, e: nat)
    requires IsPass(o, s, run, c, e) && run[e] == StartOver
    ensures var (p, q) := (At(o, s, run, c).p, At(o, s, run, e + 1).p);
            (q.talker <==> !p.monitor) && (q.listener <==> !p.talkOnly || p.monitor)
  {
    PassHolds(o, s, run, c + 1, e);
  }

  /** When the first marked user comes, one who waited talks unless muted or down as a listener, and hears
      unless down for talking only. */
  lemma MarkedArrives(o: Options, s: Sys, run: seq<Act>, c: nat)
    requires c < |run| && run[c].Check? && run[c].marked > 0 && o.waitMarked
    requires !At(o, s, run, c).inPass && At(o, s, run, c + 1).inPass && At(o, s, run, c).p.lastMarked == 0
    ensures var (p, q, user) := (At(o, s, run, c).p, At(o, s, run, c + 1).p, At(o, s, run, c).user);
            (q.talker <==> !user.muted && !p.monitor) && (q.listener <==> !p.talkOnly || p.monitor)
  {
  }

  predicate NoChecks(run: seq<Act>, i: nat, j: nat)
    requires j <= |run|
  {
    forall k :: i <= k < j ==> !run[k].Check?
  }

  lemma MusicKept(o: Options, s: Sys, act: Act)
    requires !act.Check?
    ensures Stepped(o, s, act).p.onHold == s.p.onHold
  {
  }

  lemma {:induction false} MusicLasts(o: Options, s: Sys, run: seq<Act>, i: nat, j: nat)
    requires i <= j <= |run| && NoChecks(run, i, j)
    ensures At(o, s, run, j).p.onHold == At(o, s, run, i).p.onHold
    decreases j - i
  {
    if i == j {
    } else {
      MusicLasts(o, s, run, i, j - 1);
      MusicKept(o, At(o, s, run, j - 1), run[j - 1]);
    }
  }

  /** One who does not wait for marked users, and asked for music, hears it from a check to the next exactly
      when alone at the check. */
  lemma AloneHearsMusic(o: Options, s: Sys, run: seq<Act>, c: nat, j: nat)
    requires c < j <= |run| && run[c].Check? && NoChecks(run, c + 1, j) && o.moh && !o.waitMarked
    requires !At(o, s, run, c).inPass && At(o, s, run, c + 1).inPass
    ensures At(o, s, run, j).p.onHold <==> run[c].alone
  {
    MusicLasts(o, s, run, c + 1, j);
  }

  /** There is music within a pass exactly when it saw no marked user, and none before one when the last pass
      saw one. */
  predicate MusicRight(s: Sys) {
    if s.inPass then s.p.onHold <==> s.passMarked == 0 else s.p.lastMarked != 0 ==> !s.p.onHold
  }

  predicate MusicRightAt(o: Options, s: Sys, run: seq<Act>, n: nat)
    requires n <= |run|
  {
    MusicRight(At(o, s, run, n))
  }

  /** The thread starts over in the pass that saw the last marked user go. */
  predicate Forgets(s: Sys, act: Act) {
    act == StartOver && s.inPass && s.passMarked == 0 && s.p.lastMarked != 0
  }

  predicate ForgetsAt(o: Options, s: Sys, run: seq<Act>, n: nat)
    requires n < |run|
  {
    Forgets(At(o, s, run, n), run[n])
  }

  lemma MusicStep(o: Options, s: Sys, act: Act)
    requires MusicRight(s) && o.moh && o.waitMarked
    ensures MusicRight(Stepped(o, s, act)) <==> !Forgets(s, act)
  {
  }

  /** For one who waits for marked users and asked for music, the music is right throughout a run exactly when
      the thread never starts over in the pass in which the last marked user went: then the pass is forgotten,
      and the next marked user is no news. */
  lemma {:induction false} MusicRightIff(o: Options, s: Sys, run: seq<Act>, n: nat)
    requires n <= |run| && MusicRight(s) && o.moh && o.waitMarked
    ensures (forall k :: 0 <= k <= n ==> MusicRightAt(o, s, run, k)) <==>
            (forall k :: 0 <= k < n ==> !ForgetsAt(o, s, run, k))
  {
    if n == 0 {
      assert MusicRightAt(o, s, run, 0);
    } else {
      MusicRightIff(o, s, run, n - 1);
      var right, forgets := MusicRightAt(o, s, run, n), ForgetsAt(o, s, run, n - 1);
      if MusicRightAt(o, s, run, n - 1) { MusicStep(o, At(o, s, run, n - 1), run[n - 1]); }
    }
  }

  /** It does happen: the music goes on with a marked user there. */
  lemma MusicLeftOn(user: Users.User)
    requires !user.kicked
    ensures var run := [Check(1, false), Key(None), Check(0, false), StartOver, Check(1, false)];
            var s := Sys(Part(true, true, false, false, false, 0), user, false, 0, false, false);
            At(Options(true, false, true), s, run, 5).p.onHold
  {
    var run := [Check(1, false), Key(None), Check(0, false), StartOver, Check(1, false)];
    var o := Options(true, false, true);
    var s := Sys(Part(true, true, false, false, false, 0), user, false, 0, false, false);
    assert At(o, s, run, 1) == Stepped(o, s, run[0]);
    assert At(o, s, run, 2) == Stepped(o, At(o, s, run, 1), run[1]);
    assert At(o, s, run, 3) == Stepped(o, At(o, s, run, 2), run[2]);
    assert At(o, s, run, 4) == Stepped(o, At(o, s, run, 3), run[3]);
    assert At(o, s, run, 5) == Stepped(o, At(o, s, run, 4), run[4]);
  }
}

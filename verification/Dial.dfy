/** Dial: forking a call to several legs, waiting for one of them to answer, hanging the rest up.

    A channel is a number handed out by cw_request, never twice.  Everything the outside world
    decides in one pass of wait_for_answer's loop (who woke up, which lines are up, what the frame
    was, whether a forward succeeds) is one value of type Round, so a statement for every sequence
    of rounds is a statement for every run. */
module Dial {
  import opened Common

  type Chan = nat

  const MAX_FORWARDS := 8

  datatype Cause = Busy | Congestion | Unregistered | NormalClearing | OtherCause(code: int)

  datatype Counts = Counts(busy: nat, congestion: nat, nochan: nat) {
    function Total(): nat { busy + congestion + nochan }
  }

  datatype Leg = Leg(chan: Option<Chan>, stillGoing: bool, forwards: nat)

  datatype Status = NoAnswer | ChanUnavail | BusyStatus | CongestionStatus | Cancel | AnswerStatus

  /** The state shared by the legs of one dial.
      next      the channels 0..next have been handed out by cw_request
      hungUp    every call of cw_hangup, in order
      endings   why each leg that lost its channel lost it
      asked     how many forward requests each leg has made
      start     the failure counters on entry to wait_for_answer */
  datatype Switch = Switch(
    legs: seq<Leg>, counts: Counts, next: nat, hungUp: seq<Chan>,
    endings: seq<Cause>, asked: seq<nat>, start: Counts)

  // ---- What the environment decides ----

  datatype Winner = Nobody | Caller | Peer(chan: Chan)

  /** What cw_read returns on a leg; Closed is the null frame, with the channel's hangup cause. */
  datatype LegFrame = AnswerFrame | BusyFrame | CongestionFrame | OtherFrame | Closed(cause: Cause)

  /** What cw_read returns on the calling channel. */
  datatype CallerFrame = CallerHangup | ExitDigit(digit: int) | StarDisconnect | OtherCallerFrame

  datatype Round = Round(
    winner: Winner, to: int, up: set<Chan>,
    callForward: bool, granted: bool, cause: Cause, callFails: bool,
    frame: LegFrame, callerFrame: CallerFrame)

  // ---- Counting ----

  function HandleCause(cause: Cause, k: Counts): Counts {
    match cause
    case Busy => k.(busy := k.busy + 1)
    case Congestion => k.(congestion := k.congestion + 1)
    case Unregistered => k.(nochan := k.nochan + 1)
    case NormalClearing => k
    case OtherCause(_) => k.(nochan := k.nochan + 1)
  }

  function Tally(start: Counts, endings: seq<Cause>): Counts {
    if endings == [] then start
    else HandleCause(endings[|endings| - 1], Tally(start, endings[..|endings| - 1]))
  }

  function Clearings(endings: seq<Cause>): nat {
    if endings == [] then 0
    else Clearings(endings[..|endings| - 1]) + if endings[|endings| - 1] == NormalClearing then 1 else 0
  }

  lemma TallySnoc(start: Counts, endings: seq<Cause>, c: Cause)
    ensures Tally(start, endings + [c]) == HandleCause(c, Tally(start, endings))
    ensures Clearings(endings + [c]) == Clearings(endings) + if c == NormalClearing then 1 else 0
  {
  }

  /** A cause counted as no channel. */
  predicate Lost(cause: Cause) {
    cause.Unregistered? || cause.OtherCause?
  }

  ghost predicate AnyLost(endings: seq<Cause>) {
    exists i :: 0 <= i < |endings| && Lost(endings[i])
  }

  lemma {:induction false} TallyLost(start: Counts, endings: seq<Cause>)
    ensures Tally(start, endings).nochan > 0 <==> start.nochan > 0 || AnyLost(endings)
  {
    if endings == [] {
    } else {
      var n := |endings| - 1;
      TallyLost(start, endings[..n]);
      if AnyLost(endings[..n]) {
        var i :| 0 <= i < n && Lost(endings[..n][i]);
        assert Lost(endings[i]);
      } else if Lost(endings[n]) {
      } else {
        forall i | 0 <= i < |endings| ensures !Lost(endings[i]) { assert i < n ==> endings[..n][i] == endings[i]; }
      }
    }
  }

  lemma {:induction false} TallyCounts(start: Counts, endings: seq<Cause>)
    ensures var k := Tally(start, endings);
            && k.Total() + Clearings(endings) == start.Total() + |endings|
            && (k.busy > 0 <==> start.busy > 0 || Busy in endings)
            && (k.congestion > 0 <==> start.congestion > 0 || Congestion in endings)
            && (Clearings(endings) > 0 <==> NormalClearing in endings)
  {
    if endings == [] {
    } else {
      var front, last := endings[..|endings| - 1], endings[|endings| - 1];
      assert endings == front + [last];
      TallyCounts(start, front);
    }
  }

  /** What the three counters hold: one unit for every ending that is not normal clearing. */
  lemma TallyMeaning(start: Counts, endings: seq<Cause>)
    ensures var k := Tally(start, endings);
            && k.Total() + Clearings(endings) == start.Total() + |endings|
            && (k.busy > 0 <==> start.busy > 0 || Busy in endings)
            && (k.congestion > 0 <==> start.congestion > 0 || Congestion in endings)
            && (k.nochan > 0 <==> start.nochan > 0 || AnyLost(endings))
            && (Clearings(endings) > 0 <==> NormalClearing in endings)
  {
    TallyCounts(start, endings);
    TallyLost(start, endings);
  }

  // ---- Ownership ----

  /** How many legs hold channel c. */
  function Held(legs: seq<Leg>, c: Chan): nat {
    if legs == [] then 0 else Has(legs[0], c) + Held(legs[1..], c)
  }

  function Has(leg: Leg, c: Chan): nat {
    if leg.chan == Some(c) then 1 else 0
  }

  /** How often channel c has been hung up. */
  function HangUps(s: Switch, c: Chan): nat {
    multiset(s.hungUp)[c]
  }

  /** Each channel ever handed out is held by exactly one leg or has been hung up exactly once. */
  ghost predicate Owned(s: Switch) {
    forall c: Chan :: HangUps(s, c) + Held(s.legs, c) == if c < s.next then 1 else 0
  }

  function Dead(legs: seq<Leg>): nat {
    if legs == [] then 0 else (if legs[0].chan.None? then 1 else 0) + Dead(legs[1..])
  }

  lemma {:induction false} ReplaceLeg(legs: seq<Leg>, i: nat, leg: Leg, c: Chan)
    requires i < |legs|
    ensures Held(legs[i := leg], c) + Has(legs[i], c) == Held(legs, c) + Has(leg, c)
    ensures legs[i].chan.Some? ==> Dead(legs[i := leg]) == Dead(legs) + if leg.chan.None? then 1 else 0
  {
    var legs' := legs[i := leg];
    if i == 0 {
      assert legs'[1..] == legs[1..];
    } else {
      ReplaceLeg(legs[1..], i - 1, leg, c);
      assert legs'[1..] == legs[1..][i - 1 := leg];
    }
  }

  lemma {:induction false} HeldBy(legs: seq<Leg>, i: nat)
    requires i < |legs| && legs[i].chan.Some?
    ensures Held(legs, legs[i].chan.value) > 0
  {
    if i == 0 {
    } else {
      HeldBy(legs[1..], i - 1);
    }
  }

  lemma {:induction false} HeldByTwo(legs: seq<Leg>, i: nat, j: nat)
    requires i < j < |legs| && legs[i].chan.Some? && legs[i].chan == legs[j].chan
    ensures Held(legs, legs[i].chan.value) > 1
  {
    if i == 0 { HeldBy(legs[1..], j - 1); } else { HeldByTwo(legs[1..], i - 1, j - 1); }
  }

  lemma {:induction false} NoneLive(legs: seq<Leg>)
    requires forall j :: 0 <= j < |legs| ==> legs[j].chan.None?
    ensures Dead(legs) == |legs|
  {
    if legs == [] {
    } else {
      NoneLive(legs[1..]);
    }
  }

  // ---- The invariant of a dial ----

  ghost predicate LegOk(leg: Leg, asked: nat) {
    && (leg.stillGoing <==> leg.chan.Some?)
    && leg.forwards <= MAX_FORWARDS
    && (leg.chan.Some? ==> leg.forwards < MAX_FORWARDS)
    && asked == (if leg.forwards < MAX_FORWARDS then leg.forwards else MAX_FORWARDS - 1)
  }

  ghost predicate Wf(s: Switch) {
    && |s.asked| == |s.legs|
    && (forall i :: 0 <= i < |s.legs| ==> LegOk(s.legs[i], s.asked[i]))
    && Owned(s)
    && s.counts == Tally(s.start, s.endings)
    && |s.endings| == Dead(s.legs)
  }

  /** No two legs ever hold the same channel. */
  lemma LegsDistinct(s: Switch, i: nat, j: nat)
    requires Wf(s) && i < j < |s.legs| && s.legs[i].chan.Some?
    ensures s.legs[i].chan != s.legs[j].chan
  {
    if s.legs[i].chan == s.legs[j].chan {
      HeldByTwo(s.legs, i, j);
    }
  }

  lemma LegChanKnown(s: Switch, i: nat)
    requires Wf(s) && i < |s.legs| && s.legs[i].chan.Some?
    ensures s.legs[i].chan.value < s.next && HangUps(s, s.legs[i].chan.value) == 0
  {
    HeldBy(s.legs, i);
    assert HangUps(s, s.legs[i].chan.value) + Held(s.legs, s.legs[i].chan.value) > 0;
  }

  /** The three failure counters and the legs still alive never exceed the lines dialled, and with no
      leg left the counters add up to all of them exactly when no leg ended with normal clearing. */
  lemma LegAccounting(s: Switch)
    requires Wf(s)
    ensures s.counts.Total() <= s.start.Total() + |s.legs|
    ensures (forall j :: 0 <= j < |s.legs| ==> s.legs[j].chan.None?)
            ==> (s.counts.Total() == s.start.Total() + |s.legs| <==> NormalClearing !in s.endings)
  {
    TallyMeaning(s.start, s.endings);
    DeadAtMost(s.legs);
    if forall j :: 0 <= j < |s.legs| ==> s.legs[j].chan.None? { NoneLive(s.legs); }
  }

  lemma {:induction false} DeadAtMost(legs: seq<Leg>)
    ensures Dead(legs) <= |legs|
  {
    if legs == [] {
    } else {
      DeadAtMost(legs[1..]);
    }
  }

  // ---- What one pass over the legs must do ----

  /** First leg whose channel is c; |legs| when there is none. */
  function FindLeg(legs: seq<Leg>, c: Chan): (i: nat)
    ensures i <= |legs|
    ensures i < |legs| ==> legs[i].chan == Some(c)
  {
    if legs == [] then 0 else if legs[0].chan == Some(c) then 0 else 1 + FindLeg(legs[1..], c)
  }

  lemma {:induction false} FindLegIsFirst(legs: seq<Leg>, c: Chan, j: nat)
    requires j < FindLeg(legs, c)
    ensures legs[j].chan != Some(c)
  {
    if j == 0 {
    } else {
      FindLegIsFirst(legs[1..], c, j - 1);
    }
  }

  /** The one leg this pass may change: the one that woke us, unless its line is already up. */
  function Woken(s: Switch, r: Round): (w: nat)
    ensures w <= |s.legs|
    ensures w < |s.legs| ==> r.winner.Peer? && s.legs[w].chan == Some(r.winner.chan)
  {
    if r.winner.Peer? && r.winner.chan !in r.up then FindLeg(s.legs, r.winner.chan) else |s.legs|
  }

  /** Leg w gives its channel up and becomes leg', having made `asked` forward requests in all.  When a
      new channel was taken on the way and leg' does not hold it, that one is hung up too. */
  function Rework(s: Switch, w: nat, leg': Leg, asked: nat, taken: bool, ended: Option<Cause>): Switch
    requires w < |s.legs| == |s.asked| && s.legs[w].chan.Some?
  {
    Switch(s.legs[w := leg'],
           if ended.Some? then HandleCause(ended.value, s.counts) else s.counts,
           if taken then s.next + 1 else s.next,
           s.hungUp + (if taken && leg'.chan.None? then [s.next] else []) + [s.legs[w].chan.value],
           if ended.Some? then s.endings + [ended.value] else s.endings,
           s.asked[w := asked], s.start)
  }

  /** What happens to leg w when it is the one that woke us. */
  function Settle(s: Switch, w: nat, r: Round): Switch
    requires w < |s.legs| == |s.asked| && s.legs[w].chan.Some?
  {
    var leg, asked := s.legs[w], s.asked[w];
    var tries := leg.forwards + 1;
    if r.callForward then
      if tries >= MAX_FORWARDS then Rework(s, w, Leg(None, false, tries), asked, false, Some(Congestion))
      else if !r.granted then Rework(s, w, Leg(None, false, tries), asked + 1, false, Some(r.cause))
      else if r.callFails then Rework(s, w, Leg(None, false, tries), asked + 1, true, Some(OtherCause(0)))
      else Rework(s, w, Leg(Some(s.next), leg.stillGoing, tries), asked + 1, true, None)
    else
      var gone := Leg(None, false, leg.forwards);
      match r.frame
      case BusyFrame => Rework(s, w, gone, asked, false, Some(Busy))
      case CongestionFrame => Rework(s, w, gone, asked, false, Some(Congestion))
      case Closed(cause) => Rework(s, w, gone, asked, false, Some(cause))
      case AnswerFrame => s
      case OtherFrame => s
  }

  function Scanned(s: Switch, r: Round): Switch
    requires |s.asked| == |s.legs|
  {
    if Woken(s, r) < |s.legs| then Settle(s, Woken(s, r), r) else s
  }

  /** The leg an answer frame was read from; |legs| when there was none. */
  function Heard(s: Switch, r: Round): nat {
    if !r.callForward && r.frame == AnswerFrame then Woken(s, r) else |s.legs|
  }

  /** Leg j has answered: its line is up, or an answer frame was read from it. */
  predicate Answers(legs: seq<Leg>, up: set<Chan>, heard: nat, j: nat)
    requires j < |legs|
  {
    legs[j].chan.Some? && (legs[j].chan.value in up || j == heard)
  }

  /** The channel of the first of the legs 0..n that has answered. */
  function FirstAnswer(legs: seq<Leg>, up: set<Chan>, heard: nat, n: nat): Option<Chan>
    requires n <= |legs|
  {
    if n == 0 then None
    else if FirstAnswer(legs, up, heard, n - 1).Some? then FirstAnswer(legs, up, heard, n - 1)
    else if Answers(legs, up, heard, n - 1) then legs[n - 1].chan
    else None
  }

  /** The peer a pass elects, judged by the legs as the pass leaves them. */
  function Elected(s: Switch, r: Round, n: nat): Option<Chan>
    requires |s.asked| == |s.legs| && n <= |s.legs|
  {
    FirstAnswer(Scanned(s, r).legs, r.up, Heard(s, r), n)
  }

  lemma {:induction false} FirstAnswerMeaning(legs: seq<Leg>, up: set<Chan>, heard: nat, n: nat)
    requires n <= |legs|
    ensures var peer := FirstAnswer(legs, up, heard, n);
            if peer.None? then forall j :: 0 <= j < n ==> !Answers(legs, up, heard, j)
            else exists j :: 0 <= j < n && Answers(legs, up, heard, j) && legs[j].chan == peer
                             && forall k :: 0 <= k < j ==> !Answers(legs, up, heard, k)
  {
    if n == 0 {
    } else {
      FirstAnswerMeaning(legs, up, heard, n - 1);
    }
  }

  /** Every channel is still held or hung up once. */
  lemma ReworkOwned(s: Switch, w: nat, leg': Leg, asked: nat, taken: bool, ended: Option<Cause>, c: Chan)
    requires w < |s.legs| == |s.asked| && s.legs[w].chan.Some?
    requires leg'.chan.None? || (taken && leg'.chan == Some(s.next))
    requires HangUps(s, c) + Held(s.legs, c) == if c < s.next then 1 else 0
    ensures var s' := Rework(s, w, leg', asked, taken, ended);
            HangUps(s', c) + Held(s'.legs, c) == if c < s'.next then 1 else 0
  {
    ReplaceLeg(s.legs, w, leg', c);
  }

  /** Reworking a leg moves its channel, and one taken in vain, to the ones hung up. */
  lemma ReworkKeeps(s: Switch, w: nat, leg': Leg, asked: nat, taken: bool, ended: Option<Cause>)
    requires Wf(s) && w < |s.legs| && s.legs[w].chan.Some?
    requires LegOk(leg', asked)
    requires leg'.chan.None? || (taken && leg'.chan == Some(s.next))
    requires ended.Some? <==> leg'.chan.None?
    ensures Wf(Rework(s, w, leg', asked, taken, ended))
  {
    var s' := Rework(s, w, leg', asked, taken, ended);
    forall c: Chan ensures HangUps(s', c) + Held(s'.legs, c) == if c < s'.next then 1 else 0 {
      ReworkOwned(s, w, leg', asked, taken, ended, c);
    }
    ReplaceLeg(s.legs, w, leg', 0);
    if ended.Some? { TallySnoc(s.start, s.endings, ended.value); }
  }

  lemma ForwardKeeps(s: Switch, w: nat, r: Round)
    requires Wf(s) && w < |s.legs| && s.legs[w].chan.Some? && r.callForward
    ensures Wf(Settle(s, w, r)) && Settle(s, w, r).legs[w].chan != s.legs[w].chan
  {
    LegChanKnown(s, w);
    var leg, asked := s.legs[w], s.asked[w];
    var tries := leg.forwards + 1;
    assert LegOk(leg, asked);
    if tries >= MAX_FORWARDS {
      ReworkKeeps(s, w, Leg(None, false, tries), asked, false, Some(Congestion));
    } else if !r.granted {
      ReworkKeeps(s, w, Leg(None, false, tries), asked + 1, false, Some(r.cause));
    } else if r.callFails {
      ReworkKeeps(s, w, Leg(None, false, tries), asked + 1, true, Some(OtherCause(0)));
    } else {
      ReworkKeeps(s, w, Leg(Some(s.next), leg.stillGoing, tries), asked + 1, true, None);
    }
  }

  lemma ReadKeeps(s: Switch, w: nat, r: Round)
    requires Wf(s) && w < |s.legs| && s.legs[w].chan.Some? && !r.callForward
    ensures Wf(Settle(s, w, r))
  {
    var leg, asked := s.legs[w], s.asked[w];
    assert LegOk(leg, asked);
    if r.frame != AnswerFrame && r.frame != OtherFrame {
      var cause :=
        if r.frame == BusyFrame then Busy else if r.frame == CongestionFrame then Congestion else r.frame.cause;
      ReworkKeeps(s, w, Leg(None, false, leg.forwards), asked, false, Some(cause));
    }
  }

  /** One pass keeps every channel owned once, the counters exact and the forward limit. */
  lemma SettleKeeps(s: Switch, w: nat, r: Round)
    requires Wf(s) && w < |s.legs| && s.legs[w].chan.Some?
    ensures Wf(Settle(s, w, r))
    ensures r.callForward ==> Settle(s, w, r).legs[w].chan != s.legs[w].chan
  {
    if r.callForward { ForwardKeeps(s, w, r); } else { ReadKeeps(s, w, r); }
  }

  lemma ScannedKeeps(s: Switch, r: Round)
    requires Wf(s)
    ensures Wf(Scanned(s, r))
    ensures |Scanned(s, r).legs| == |s.legs| && Scanned(s, r).start == s.start
    ensures s.next <= Scanned(s, r).next <= s.next + 1
    ensures s.hungUp <= Scanned(s, r).hungUp
  {
    if Woken(s, r) < |s.legs| { SettleKeeps(s, Woken(s, r), r); }
  }

  // ---- wait_for_answer ----

  /** The channel that woke us asks to be forwarded: its leg tries the new destination, and the old
      channel is hung up whatever comes of it. */
  method ForwardLeg(s: Switch, i: nat, r: Round) returns (s': Switch)
    requires i < |s.legs| == |s.asked| && s.legs[i].chan.Some? && r.callForward
    ensures s' == Settle(s, i, r)
  {
    s' := s;
    var o, winner := s.legs[i], s.legs[i].chan.value;
    o := o.(forwards := o.forwards + 1);
    if o.forwards < MAX_FORWARDS {
      s' := s'.(asked := s'.asked[i := s'.asked[i] + 1]);
      if r.granted {
        o := o.(chan := Some(s'.next));
        s' := s'.(next := s'.next + 1);
        if r.callFails {
          s' := s'.(hungUp := s'.hungUp + [o.chan.value]);
          o := o.(stillGoing := false, chan := None);
          s' := s'.(counts := s'.counts.(nochan := s'.counts.nochan + 1), endings := s'.endings + [OtherCause(0)]);
        }
      } else {
        o := o.(stillGoing := false, chan := None);
        s' := s'.(counts := HandleCause(r.cause, s'.counts), endings := s'.endings + [r.cause]);
      }
    } else {
      o := o.(stillGoing := false, chan := None);
      s' := s'.(counts := HandleCause(Congestion, s'.counts), endings := s'.endings + [Congestion]);
    }
    s' := s'.(legs := s'.legs[i := o], hungUp := s'.hungUp + [winner]);
    assert s'.asked == Settle(s, i, r).asked && s'.hungUp == Settle(s, i, r).hungUp;
  }

  /** The channel that woke us has a frame, or has gone. */
  method ReadLeg(s: Switch, i: nat, r: Round, before: Option<Chan>) returns (s': Switch, peer: Option<Chan>)
    requires i < |s.legs| == |s.asked| && s.legs[i].chan.Some? && !r.callForward
    ensures s' == Settle(s, i, r)
    ensures peer == if before.None? && r.frame == AnswerFrame then s.legs[i].chan else before
  {
    s', peer := s, before;
    var o := s.legs[i];
    var ended: Option<Cause> := None;
    match r.frame {
      case AnswerFrame => if peer.None? { peer := o.chan; }
      case BusyFrame => ended := Some(Busy);
      case CongestionFrame => ended := Some(Congestion);
      case OtherFrame =>
      case Closed(cause) => ended := Some(cause);
    }
    if ended.Some? {
      s' := s'.(hungUp := s'.hungUp + [o.chan.value]);
      o := o.(chan := None, stillGoing := false);
      s' := s'.(legs := s'.legs[i := o], counts := HandleCause(ended.value, s'.counts),
                endings := s'.endings + [ended.value]);
      assert s'.asked == s.asked[i := s.asked[i]];
    }
  }

  /** One pass over the legs.  Forwarding a leg revisits it, so the loop's index does not always move;
      it still ends, because the channel put in the leg's place is not the one that woke us. */
  method Scan(s: Switch, r: Round) returns (s': Switch, peer: Option<Chan>)
    requires Wf(s)
    ensures s' == Scanned(s, r)
    ensures peer == Elected(s, r, |s.legs|)
  {
    s', peer := s, None;
    ghost var w, settled := Woken(s, r), false;
    if w < |s.legs| { SettleKeeps(s, w, r); }
    var i := 0;
    while i < |s'.legs|
      invariant |s'.legs| == |s.legs| == |s'.asked| && 0 <= i <= |s.legs|
      invariant if settled then w < |s.legs| && w <= i && s' == Scanned(s, r) else i <= w && s' == s
      invariant settled && i == w ==> r.callForward
      invariant peer == Elected(s, r, i)
      decreases |s.legs| - i, if settled then 0 else 1
    {
      var o := s'.legs[i];
      WokenIsUnique(s, r, i);
      assert LegOk(Scanned(s, r).legs[i], Scanned(s, r).asked[i]) by { ScannedKeeps(s, r); }
      if o.stillGoing && o.chan.Some? && o.chan.value in r.up {
        if peer.None? { peer := o.chan; }
      } else if r.winner.Peer? && o.chan == Some(r.winner.chan) {
        if r.callForward {
          s' := ForwardLeg(s', i, r);
          settled := true;
          continue;
        }
        s', peer := ReadLeg(s', i, r, peer);
        settled := true;
      }
      i := i + 1;
    }
  }

  /** Only the woken leg holds the channel that woke us, before the pass or after it. */
  lemma WokenIsUnique(s: Switch, r: Round, i: nat)
    requires Wf(s) && i < |s.legs|
    ensures r.winner.Peer? && r.winner.chan !in r.up && s.legs[i].chan == Some(r.winner.chan) ==> i == Woken(s, r)
    ensures i != Woken(s, r) ==> Scanned(s, r).legs[i] == s.legs[i]
    ensures i == Woken(s, r) && r.callForward ==> Scanned(s, r).legs[i].chan != Some(r.winner.chan)
  {
    var w := Woken(s, r);
    if w < i { LegsDistinct(s, w, i); }
    if r.winner.Peer? && r.winner.chan !in r.up && i < w { FindLegIsFirst(s.legs, r.winner.chan, i); }
    if w == i { SettleKeeps(s, w, r); }
  }

  /** The status of a dial all of whose legs have failed, said without counters. */
  ghost function Verdict(before: Status, start: Counts, endings: seq<Cause>): Status {
    if NormalClearing in endings then before
    else if start.busy > 0 || Busy in endings then BusyStatus
    else if start.congestion > 0 || Congestion in endings then CongestionStatus
    else if start.nochan > 0 || endings != [] then ChanUnavail
    else before
  }

  /** Why wait_for_answer stopped; Pending when the environment's rounds ran out first. */
  datatype End = Answered | Cancelled | NoLegs | TimedOut | Pending

  predicate CallerStops(r: Round) {
    r.winner == Caller && r.callerFrame != OtherCallerFrame
  }

  ghost predicate AllGone(legs: seq<Leg>) {
    forall j :: 0 <= j < |legs| ==> legs[j].chan.None?
  }

  /** What wait_for_answer leaves behind: the legs, and what it tells its caller. */
  datatype Outcome = Outcome(s: Switch, peer: Option<Chan>, to: int, status: Status, digit: int, end: End)

  /** The wait, one pass after another, each judged by Scanned and Elected. */
  ghost function Wait(s: Switch, to: int, status: Status, rounds: seq<Round>): Outcome
    requires |s.asked| == |s.legs|
    decreases |rounds|
  {
    if to == 0 then Outcome(s, None, 0, status, 0, TimedOut)
    else if AllGone(s.legs) then Outcome(s, None, 0, Verdict(status, s.start, s.endings), 0, NoLegs)
    else if rounds == [] then Outcome(s, None, to, status, 0, Pending)
    else
      var r, peer := rounds[0], Elected(s, rounds[0], |s.legs|);
      if CallerStops(r) then Cancelling(Scanned(s, r), r.callerFrame)
      else if peer.Some? then Outcome(Scanned(s, r), peer, r.to, status, 0, Answered)
      else Wait(Scanned(s, r), r.to, status, rounds[1..])
  }

  function Cancelling(s: Switch, f: CallerFrame): Outcome {
    Outcome(s, None, if f == CallerHangup then -1 else 0, Cancel, if f.ExitDigit? then f.digit else 0, Cancelled)
  }

  /** Over every run of the wait each channel stays owned once, the counters stay exact and the forward
      limit holds; at most one channel is handed out a round; and the peer of an answered wait is a
      channel some leg still holds, never one that was hung up. */
  lemma {:induction false} WaitKeeps(s: Switch, to: int, status: Status, rounds: seq<Round>)
    requires Wf(s)
    ensures var o := Wait(s, to, status, rounds);
            && Wf(o.s) && |o.s.legs| == |s.legs| && o.s.start == s.start
            && s.next <= o.s.next <= s.next + |rounds|
            && (o.peer.Some? <==> o.end == Answered)
            && (o.peer.Some? ==> o.peer.value < o.s.next && HangUps(o.s, o.peer.value) == 0)
    decreases |rounds|
  {
    if to == 0 || AllGone(s.legs) || rounds == [] {
    } else {
      var r := rounds[0];
      ScannedKeeps(s, r);
      if CallerStops(r) {
      } else if Elected(s, r, |s.legs|).Some? {
        ElectedIsHeld(s, r);
      } else {
        WaitKeeps(Scanned(s, r), r.to, status, rounds[1..]);
      }
    }
  }

  lemma ElectedIsHeld(s: Switch, r: Round)
    requires Wf(s) && Wf(Scanned(s, r)) && Elected(s, r, |s.legs|).Some?
    ensures var s', peer := Scanned(s, r), Elected(s, r, |s.legs|).value;
            peer < s'.next && HangUps(s', peer) == 0
  {
    var s', peer := Scanned(s, r), Elected(s, r, |s.legs|);
    FirstAnswerMeaning(s'.legs, r.up, Heard(s, r), |s.legs|);
    var j :| 0 <= j < |s'.legs| && s'.legs[j].chan == peer;
    LegChanKnown(s', j);
  }

  /** Waits for a leg to answer. */
  method WaitForAnswer(s0: Switch, to0: int, status0: Status, rounds: seq<Round>) returns (o: Outcome)
    requires Wf(s0)
    ensures o == Wait(s0, to0, status0, rounds)
  {
    var s, to, peer: Option<Chan>, n := s0, to0, None, 0;
    assert rounds[0..] == rounds;
    while to != 0 && peer.None?
      invariant n <= |rounds| && Wf(s) && peer.None?
      invariant Wait(s0, to0, status0, rounds) == Wait(s, to, status0, rounds[n..])
      decreases |rounds| - n
    {
      var found, lines := Watch(s);
      if !found {
        var status := NobodyLeft(s, lines, status0);
        return Outcome(s, None, 0, status, 0, NoLegs);
      }
      if n == |rounds| { return Outcome(s, None, to, status0, 0, Pending); }
      var r := rounds[n];
      ScannedKeeps(s, r);
      assert rounds[n..][1..] == rounds[n + 1..];
      to := r.to;
      s, peer := Scan(s, r);
      if r.winner == Caller && r.callerFrame != OtherCallerFrame {
        return Cancelling(s, r.callerFrame);
      }
      if peer.Some? { return Outcome(s, peer, to, status0, 0, Answered); }
      n := n + 1;
    }
    o := Outcome(s, None, 0, status0, 0, TimedOut);
  }

  /** Looks for a leg still worth waiting for, and counts the lines. */
  method Watch(s: Switch) returns (found: bool, lines: nat)
    requires Wf(s)
    ensures found <==> !AllGone(s.legs)
    ensures lines == s.start.Total() + |s.legs|
  {
    found, lines := false, s.start.Total();
    for i := 0 to |s.legs|
      invariant !found ==> forall j :: 0 <= j < i ==> s.legs[j].chan.None?
      invariant found ==> !AllGone(s.legs)
      invariant lines == s.start.Total() + i
    {
      assert LegOk(s.legs[i], s.asked[i]);
      if s.legs[i].stillGoing && s.legs[i].chan.Some? { found := true; }
      lines := lines + 1;
    }
  }

  /** The status chosen from the counters is the verdict on the legs' endings. */
  method NobodyLeft(s: Switch, lines: nat, before: Status) returns (status: Status)
    requires Wf(s) && lines == s.start.Total() + |s.legs|
    requires AllGone(s.legs)
    ensures status == Verdict(before, s.start, s.endings)
  {
    LegAccounting(s);
    TallyMeaning(s.start, s.endings);
    NoneLive(s.legs);
    status := before;
    if lines == s.counts.Total() {
      if s.counts.busy > 0 { status := BusyStatus; }
      else if s.counts.congestion > 0 { status := CongestionStatus; }
      else if s.counts.nochan > 0 { status := ChanUnavail; }
    }
  }

  // ---- What the rounds alone say ----

  /** The cause with which a leg that woke the wait ends; None when it goes on. */
  function CauseOf(forwards: nat, r: Round): Option<Cause> {
    if r.callForward then
      if forwards + 1 >= MAX_FORWARDS then Some(Congestion)
      else if !r.granted then Some(r.cause)
      else if r.callFails then Some(OtherCause(0))
      else None
    else
      match r.frame
      case BusyFrame => Some(Busy)
      case CongestionFrame => Some(Congestion)
      case Closed(cause) => Some(cause)
      case _ => None
  }

  function Listed(cause: Option<Cause>): seq<Cause> {
    if cause.Some? then [cause.value] else []
  }

  function CausesIn(s: Switch, r: Round): seq<Cause> {
    if Woken(s, r) < |s.legs| then Listed(CauseOf(s.legs[Woken(s, r)].forwards, r)) else []
  }

  /** A pass ends the woken leg under the cause read off its round, or not at all. */
  lemma ScannedEnds(s: Switch, r: Round)
    requires |s.asked| == |s.legs|
    ensures Scanned(s, r).endings == s.endings + CausesIn(s, r)
  {
  }

  /** What becomes of the woken leg: without a channel when it ended; the next channel when it was forwarded;
      as it was otherwise.  It has one forward more exactly when it asked for one. */
  lemma ScannedLeg(s: Switch, r: Round)
    requires |s.asked| == |s.legs| && Woken(s, r) < |s.legs|
    ensures var (w, leg) := (Woken(s, r), s.legs[Woken(s, r)]);
            var leg' := Scanned(s, r).legs[w];
            && leg'.chan == (if CauseOf(leg.forwards, r).Some? then None
                             else if r.callForward then Some(s.next) else leg.chan)
            && leg'.forwards == leg.forwards + if r.callForward then 1 else 0
  {
  }

  /** A leg that sends an answer is the peer unless one before it is up. */
  lemma AnswerWins(s: Switch, r: Round)
    requires Wf(s) && Woken(s, r) < |s.legs| && !r.callForward && r.frame == AnswerFrame
    requires forall j :: 0 <= j < Woken(s, r) && s.legs[j].chan.Some? ==> s.legs[j].chan.value !in r.up
    ensures Elected(s, r, |s.legs|) == Some(r.winner.chan)
  {
    var w := Woken(s, r);
    FirstAnswerMeaning(s.legs, r.up, w, |s.legs|);
    assert Answers(s.legs, r.up, w, w);
  }

  /** So is a leg whose line is up, unless one before it is, or one before it sends an answer. */
  lemma UpWins(s: Switch, r: Round, i: nat)
    requires Wf(s) && i < |s.legs| && s.legs[i].chan.Some? && s.legs[i].chan.value in r.up
    requires forall j :: 0 <= j < i && s.legs[j].chan.Some? ==> s.legs[j].chan.value !in r.up
    requires Woken(s, r) >= |s.legs|
    ensures Elected(s, r, |s.legs|) == s.legs[i].chan
  {
    FirstAnswerMeaning(s.legs, r.up, |s.legs|, |s.legs|);
    assert Answers(s.legs, r.up, |s.legs|, i);
  }

  /** A leg that is up is left as it is, even when it is the one that woke the wait; and so is every leg that
      did not. */
  lemma OthersAreKept(s: Switch, r: Round, i: nat)
    requires Wf(s) && i < |s.legs|
    requires s.legs[i].chan.Some? ==> s.legs[i].chan.value in r.up || r.winner != Peer(s.legs[i].chan.value)
    ensures Scanned(s, r).legs[i] == s.legs[i] && Scanned(s, r).asked[i] == s.asked[i]
  {
  }

  /** The causes read off the rounds of a wait, one round after another. */
  ghost function Causes(s: Switch, to: int, rounds: seq<Round>): seq<Cause>
    requires |s.asked| == |s.legs|
    decreases |rounds|
  {
    if to == 0 || AllGone(s.legs) || rounds == [] then []
    else
      var r := rounds[0];
      CausesIn(s, r)
      + if CallerStops(r) || Elected(s, r, |s.legs|).Some? then [] else Causes(Scanned(s, r), r.to, rounds[1..])
  }

  lemma {:induction false} WaitEndings(s: Switch, to: int, status: Status, rounds: seq<Round>)
    requires |s.asked| == |s.legs|
    ensures Wait(s, to, status, rounds).s.endings == s.endings + Causes(s, to, rounds)
    decreases |rounds|
  {
    if to == 0 || AllGone(s.legs) || rounds == [] {
    } else {
      var r := rounds[0];
      ScannedEnds(s, r);
      if !CallerStops(r) && Elected(s, r, |s.legs|).None? {
        WaitEndings(Scanned(s, r), r.to, status, rounds[1..]);
        Associative(s.endings, CausesIn(s, r), Causes(Scanned(s, r), r.to, rounds[1..]));
      }
    }
  }

  lemma {:induction false} WaitVerdict(s: Switch, to: int, status: Status, rounds: seq<Round>)
    requires |s.asked| == |s.legs|
    ensures var o := Wait(s, to, status, rounds);
            && o.s.start == s.start
            && o.status == match o.end
                           case Cancelled => Cancel
                           case NoLegs => Verdict(status, o.s.start, o.s.endings)
                           case _ => status
    decreases |rounds|
  {
    if to == 0 || AllGone(s.legs) || rounds == [] {
    } else {
      var r := rounds[0];
      if !CallerStops(r) && Elected(s, r, |s.legs|).None? { WaitVerdict(Scanned(s, r), r.to, status, rounds[1..]); }
    }
  }

  /** How a wait ends decides its status: cancelled by the caller, the verdict on the causes of the legs when
      none is left, and unchanged otherwise. */
  lemma WaitStatus(s: Switch, to: int, status: Status, rounds: seq<Round>)
    requires |s.asked| == |s.legs|
    ensures var o := Wait(s, to, status, rounds);
            o.status == match o.end
                        case Cancelled => Cancel
                        case NoLegs => Verdict(status, s.start, s.endings + Causes(s, to, rounds))
                        case _ => status
  {
    WaitVerdict(s, to, status, rounds);
    WaitEndings(s, to, status, rounds);
  }

  /** BUSY comes before CONGESTION, CONGESTION before CHANUNAVAIL, and a leg that cleared normally before all. */
  lemma VerdictMeaning(before: Status, start: Counts, endings: seq<Cause>)
    ensures NormalClearing in endings ==> Verdict(before, start, endings) == before
    ensures NormalClearing !in endings && (start.busy > 0 || Busy in endings)
            ==> Verdict(before, start, endings) == BusyStatus
    ensures NormalClearing !in endings && start.busy == 0 && Busy !in endings
            && (start.congestion > 0 || Congestion in endings)
            ==> Verdict(before, start, endings) == CongestionStatus
    ensures NormalClearing !in endings && start.busy == 0 && Busy !in endings && start.congestion == 0
            && Congestion !in endings && (start.nochan > 0 || AnyLost(endings))
            ==> Verdict(before, start, endings) == ChanUnavail
    ensures start == Counts(0, 0, 0) && endings == [] ==> Verdict(before, start, endings) == before
  {
  }

  /** The caller comes first: one who stops in a round in which a leg answers has cancelled the call.  A
      hangup gives -1 and a key 0, and only a key to leave by is passed on. */
  lemma CallerComesFirst(s: Switch, to: int, status: Status, rounds: seq<Round>)
    requires |s.asked| == |s.legs| && to != 0 && !AllGone(s.legs) && rounds != [] && CallerStops(rounds[0])
    ensures var (o, f) := (Wait(s, to, status, rounds), rounds[0].callerFrame);
            && o.end == Cancelled && o.status == Cancel && o.peer == None
            && (f == CallerHangup ==> o.to == -1) && (f != CallerHangup ==> o.to == 0)
            && (f.ExitDigit? ==> o.digit == f.digit) && (!f.ExitDigit? ==> o.digit == 0)
  {
  }

  /** The first leg to answer in a round without the caller's doing ends the wait. */
  lemma AnswerEnds(s: Switch, to: int, status: Status, rounds: seq<Round>)
    requires |s.asked| == |s.legs| && to != 0 && !AllGone(s.legs) && rounds != [] && !CallerStops(rounds[0])
    requires Elected(s, rounds[0], |s.legs|).Some?
    ensures var o := Wait(s, to, status, rounds);
            o.end == Answered && o.peer == Elected(s, rounds[0], |s.legs|) && o.to == rounds[0].to
  {
  }

  /** One leg, one busy round: the status is BUSY; one congested round: CONGESTION. */
  lemma OneLeg(c: Chan, r: Round, r': Round, status: Status)
    requires r.winner == Peer(c) && c !in r.up && !r.callForward && r.frame == BusyFrame && r.to != 0
    requires r' == r.(frame := CongestionFrame)
    ensures var s := Switch([Leg(Some(c), true, 0)], Counts(0, 0, 0), c + 1, [], [], [0], Counts(0, 0, 0));
            && Wait(s, 1, status, [r]).status == BusyStatus
            && Wait(s, 1, status, [r']).status == CongestionStatus
  {
    var s := Switch([Leg(Some(c), true, 0)], Counts(0, 0, 0), c + 1, [], [], [0], Counts(0, 0, 0));
    OneLegEnds(s, c, r, status);
    OneLegEnds(s, c, r', status);
  }

  lemma OneLegEnds(s: Switch, c: Chan, r: Round, status: Status)
    requires s == Switch([Leg(Some(c), true, 0)], Counts(0, 0, 0), c + 1, [], [], [0], Counts(0, 0, 0))
    requires r.winner == Peer(c) && c !in r.up && r.to != 0 && CauseOf(0, r).Some?
    ensures Wait(s, 1, status, [r]).status == Verdict(status, s.start, [CauseOf(0, r).value])
  {
    assert Woken(s, r) == 0;
    assert s.legs[0].chan.Some?;
    ScannedEnds(s, r);
    ScannedLeg(s, r);
    var s' := Scanned(s, r);
    FirstAnswerMeaning(s'.legs, r.up, Heard(s, r), 1);
    assert AllGone(s'.legs);
    assert Wait(s', r.to, status, [r][1..]).status == Verdict(status, s'.start, s'.endings);
  }

  // ---- dial_exec_full ----

  /** What the outside world decides about one technology/number of the dial string. */
  datatype Target = Target(
    wellFormed: bool, granted: bool, cause: Cause,
    callForward: bool, fwdGranted: bool, fwdCause: Cause, callFails: bool, up: bool)

  /** The target gets a leg of its own. */
  predicate Joins(t: Target) {
    t.granted && (t.callForward ==> t.fwdGranted) && !t.callFails
  }

  /** The cause counted against a target for which no channel could be had. */
  function Refusal(t: Target): Option<Cause> {
    if !t.granted then Some(t.cause) else if t.callForward && !t.fwdGranted then Some(t.fwdCause) else None
  }

  function Refusals(ts: seq<Target>, n: nat): seq<Cause>
    requires n <= |ts|
  {
    if n == 0 then []
    else match Refusal(ts[n - 1])
      case Some(cause) => Refusals(ts, n - 1) + [cause]
      case None => Refusals(ts, n - 1)
  }

  /** No channel could be had for the target, for this cause: the first request was refused, or the one for
      where it forwards to. */
  predicate RefusedWith(t: Target, cause: Cause) {
    (!t.granted && t.cause == cause) || (t.granted && t.callForward && !t.fwdGranted && t.fwdCause == cause)
  }

  lemma RefusalsStep(ts: seq<Target>, n: nat, cause: Cause)
    requires 0 < n <= |ts|
    ensures cause in Refusals(ts, n) <==> cause in Refusals(ts, n - 1) || RefusedWith(ts[n - 1], cause)
  {
  }

  /** The causes counted before the wait are those of the refused targets. */
  lemma {:induction false} RefusalsMeaning(ts: seq<Target>, n: nat, cause: Cause)
    requires n <= |ts|
    ensures cause in Refusals(ts, n) <==> exists i :: 0 <= i < n && RefusedWith(ts[i], cause)
  {
    if n == 0 {
    } else {
      RefusalsMeaning(ts, n - 1, cause);
      RefusalsStep(ts, n, cause);
    }
  }

  /** The forward requests made for each leg while dialling the first n targets, last leg first. */
  function SetupForwards(ts: seq<Target>, n: nat): seq<nat>
    requires n <= |ts|
  {
    if n == 0 then []
    else if Joins(ts[n - 1]) then [if ts[n - 1].callForward then 1 else 0] + SetupForwards(ts, n - 1)
    else SetupForwards(ts, n - 1)
  }

  /** A leg starts with one forward request exactly when its target forwarded at setup. */
  lemma {:induction false} SetupMeaning(ts: seq<Target>, n: nat)
    requires n <= |ts|
    ensures forall k :: 0 <= k < |SetupForwards(ts, n)| ==> 0 <= SetupForwards(ts, n)[k] <= 1
    ensures 1 in SetupForwards(ts, n) <==> exists i :: 0 <= i < n && Joins(ts[i]) && ts[i].callForward
    ensures 0 in SetupForwards(ts, n) <==> exists i :: 0 <= i < n && Joins(ts[i]) && !ts[i].callForward
  {
    if n == 0 {
    } else {
      SetupMeaning(ts, n - 1);
    }
  }

  /** The target dialled last has the first leg. */
  lemma {:induction false} SetupOrder(ts: seq<Target>, n: nat, k: nat)
    requires n <= |ts| && k < n && forall i :: 0 <= i < n ==> Joins(ts[i])
    ensures |SetupForwards(ts, n)| == n && SetupForwards(ts, n)[k] == if ts[n - 1 - k].callForward then 1 else 0
  {
    if n == 1 {
    } else if k == 0 {
      SetupOrder(ts, n - 1, 0);
    } else {
      SetupOrder(ts, n - 1, k - 1);
    }
  }

  /** How many of the targets are dialled: all before a malformed one, none after one that is up at once. */
  function Reach(ts: seq<Target>): (n: nat)
    ensures n <= |ts|
  {
    if ts == [] || !ts[0].wellFormed then 0
    else if Joins(ts[0]) && ts[0].up then 1
    else 1 + Reach(ts[1..])
  }

  predicate UpAtOnce(t: Target) {
    Joins(t) && t.up
  }

  /** Every target dialled is well formed, and none but the last is up at once; what is not dialled comes after
      one that is up, or begins with a malformed one. */
  lemma {:induction false} ReachMeaning(ts: seq<Target>)
    ensures var n := Reach(ts);
            && (forall i :: 0 <= i < n ==> ts[i].wellFormed)
            && (forall i :: 0 <= i < n - 1 ==> !UpAtOnce(ts[i]))
            && (n < |ts| ==> !ts[n].wellFormed || (n > 0 && UpAtOnce(ts[n - 1])))
  {
    if ts == [] || !ts[0].wellFormed || UpAtOnce(ts[0]) {
    } else {
      ReachMeaning(ts[1..]);
    }
  }

  /** Dials the targets in turn, until one is malformed or one is up at once. */
  method BuildLegs(targets: seq<Target>) returns (s: Switch, ok: bool, n: nat)
    ensures Wf(s) && s.endings == [] && AllGoing(s.legs)
    ensures n == Reach(targets) <= |targets| && s.next <= 2 * n
    ensures ok <==> n == |targets| || (n > 0 && Joins(targets[n - 1]) && targets[n - 1].up)
    ensures s.counts == Tally(Counts(0, 0, 0), Refusals(targets, n))
    ensures s.asked == SetupForwards(targets, n) && LatestFirst(s.legs, s.next)
  {
    var zero := Counts(0, 0, 0);
    s, ok, n := Switch([], zero, 0, [], [], [], zero), true, 0;
    var stop := false;
    assert targets[0..] == targets;
    while ok && !stop && n < |targets|
      invariant n <= |targets| && s.next <= 2 * n
      invariant Wf(s) && s.endings == [] && AllGoing(s.legs)
      invariant Reach(targets) == n + if ok && !stop then Reach(targets[n..]) else 0
      invariant stop <==> n > 0 && Joins(targets[n - 1]) && targets[n - 1].up
      invariant ok || (n < |targets| && !stop)
      invariant s.counts == Tally(zero, Refusals(targets, n)) && s.asked == SetupForwards(targets, n)
      invariant LatestFirst(s.legs, s.next)
      decreases |targets| - n, if ok then 1 else 0
    {
      var t := targets[n];
      if t.wellFormed {
        assert targets[n..][1..] == targets[n + 1..];
        s := AddTarget(s, targets, n);
        n := n + 1;
        stop := Joins(t) && t.up;
      } else {
        ok := false;
      }
    }
  }

  /** The legs stand in the order opposite to that in which their channels were had. */
  ghost predicate LatestFirst(legs: seq<Leg>, next: nat) {
    && (forall i :: 0 <= i < |legs| && legs[i].chan.Some? ==> legs[i].chan.value < next)
    && (forall i, j :: 0 <= i < j < |legs| && legs[i].chan.Some? && legs[j].chan.Some? ==>
          legs[i].chan.value > legs[j].chan.value)
  }

  lemma LatestStays(legs: seq<Leg>, leg: Leg, next: nat, next': nat)
    requires LatestFirst(legs, next) && next <= next'
    ensures LatestFirst(legs, next')
    ensures leg.chan.Some? && next <= leg.chan.value < next' ==> LatestFirst([leg] + legs, next')
  {
  }

  ghost predicate AllGoing(legs: seq<Leg>) {
    forall j :: 0 <= j < |legs| ==> legs[j].chan.Some?
  }

  /** Requests a channel for one target, follows a forward once, and calls it. */
  method DialTarget(s: Switch, t: Target) returns (s': Switch, refused: Option<Cause>)
    requires Wf(s) && AllGoing(s.legs)
    ensures s'.counts == s.counts && s'.start == s.start && s'.endings == s.endings
    ensures Wf(s') && AllGoing(s'.legs) && s'.next <= s.next + 2
    ensures refused == Refusal(t)
    ensures s'.asked == (if Joins(t) then [if t.callForward then 1 else 0] else []) + s.asked
    ensures s'.legs == s.legs ||
      (s'.legs != [] && s'.legs[1..] == s.legs && s'.legs[0].chan.Some? && s.next <= s'.legs[0].chan.value < s'.next)
    ensures s'.next >= s.next
  {
    s', refused := s, None;
    if !t.granted { return s, Some(t.cause); }
    var chan, forwards := s.next, 0;
    s' := s'.(next := s.next + 1);
    if t.callForward {
      forwards := forwards + 1;
      s' := s'.(hungUp := s'.hungUp + [chan]);
      if !t.fwdGranted {
        KeepsWithout(s, s');
        return s', Some(t.fwdCause);
      }
      chan := s'.next;
      s' := s'.(next := s'.next + 1);
    }
    if t.callFails {
      s' := s'.(hungUp := s'.hungUp + [chan]);
      KeepsWithout(s, s');
    } else {
      s' := s'.(legs := [Leg(Some(chan), true, forwards)] + s'.legs, asked := [forwards] + s'.asked);
      KeepsWith(s, s', chan);
    }
  }

  /** Dials target n, after the ones before it. */
  method AddTarget(s: Switch, targets: seq<Target>, n: nat) returns (s': Switch)
    requires Wf(s) && s.endings == [] && AllGoing(s.legs) && n < |targets|
    requires s.counts == Tally(Counts(0, 0, 0), Refusals(targets, n)) && s.asked == SetupForwards(targets, n)
    ensures Wf(s') && s'.endings == [] && AllGoing(s'.legs) && s'.next <= s.next + 2
    ensures s'.counts == Tally(Counts(0, 0, 0), Refusals(targets, n + 1))
    ensures s'.asked == SetupForwards(targets, n + 1)
    ensures LatestFirst(s.legs, s.next) ==> LatestFirst(s'.legs, s'.next)
  {
    var refused;
    s', refused := DialTarget(s, targets[n]);
    if LatestFirst(s.legs, s.next) {
      if s'.legs != s.legs { assert s'.legs == [s'.legs[0]] + s.legs; }
      LatestStays(s.legs, if s'.legs == [] then Leg(None, false, 0) else s'.legs[0], s.next, s'.next);
    }
    if refused.Some? { s' := Count(s', refused.value, Refusals(targets, n)); }
  }

  /** A refused target only moves the counters. */
  method Count(s: Switch, cause: Cause, ghost before: seq<Cause>) returns (s': Switch)
    requires Wf(s) && s.endings == [] && s.counts == Tally(Counts(0, 0, 0), before)
    ensures s' == s.(counts := s'.counts, start := s'.counts) && Wf(s')
    ensures s'.counts == Tally(Counts(0, 0, 0), before + [cause])
  {
    TallySnoc(Counts(0, 0, 0), before, cause);
    s' := s.(counts := HandleCause(cause, s.counts));
    s' := s'.(start := s'.counts);
    assert forall c: Chan :: HangUps(s, c) == HangUps(s', c);
  }

  lemma KeepsWithout(s: Switch, s': Switch)
    requires Wf(s) && s' == s.(next := s'.next, hungUp := s'.hungUp)
    requires (s'.next == s.next + 1 && s'.hungUp == s.hungUp + [s.next])
          || (s'.next == s.next + 2 && s'.hungUp == s.hungUp + [s.next] + [s.next + 1])
    ensures Wf(s')
  {
  }

  lemma KeepsWith(s: Switch, s': Switch, chan: Chan)
    requires Wf(s) && |s'.legs| > 0 && |s'.asked| > 0 && s'.legs[0].chan == Some(chan) && LegOk(s'.legs[0], s'.asked[0])
    requires s'.legs[1..] == s.legs && s'.asked[1..] == s.asked
    requires s'.counts == s.counts && s'.start == s.start && s'.endings == s.endings
    requires (s'.next == s.next + 1 && s'.hungUp == s.hungUp && chan == s.next)
          || (s'.next == s.next + 2 && s'.hungUp == s.hungUp + [s.next] && chan == s.next + 1)
    ensures Wf(s')
  {
  }

  /** Hangs up every leg's channel but one, and lets go of the legs. */
  method HangupTree(s: Switch, exception: Option<Chan>) returns (s': Switch)
    ensures s' == s.(legs := [], hungUp := s'.hungUp)
    ensures forall c: Chan :: HangUps(s', c) == HangUps(s, c) + if exception == Some(c) then 0 else Held(s.legs, c)
  {
    s' := s;
    while s'.legs != []
      invariant s' == s.(legs := s'.legs, hungUp := s'.hungUp)
      invariant forall c: Chan ::
        HangUps(s', c) + (if exception == Some(c) then 0 else Held(s'.legs, c))
        == HangUps(s, c) + if exception == Some(c) then 0 else Held(s.legs, c)
      decreases |s'.legs|
    {
      var outgoing := s'.legs[0];
      if outgoing.chan.Some? && outgoing.chan != exception {
        s' := s'.(hungUp := s'.hungUp + [outgoing.chan.value]);
      }
      s' := s'.(legs := s'.legs[1..]);
    }
  }

  /** A whole dial.  Every channel it was ever given is hung up exactly once, except the peer it hands
      over, which is never hung up; and no leg asks to be forwarded more than seven times. */
  method DialExec(targets: seq<Target>, to: int, rounds: seq<Round>)
    returns (s: Switch, peer: Option<Chan>, status: Status, end: End, ok: bool, ghost s0: Switch)
    ensures ok ==> (peer.Some? <==> end == Answered)
    ensures ok && end == Pending ==> Wf(s)
    ensures !ok || end != Pending ==>
      forall c: Chan :: HangUps(s, c) == if c < s.next && peer != Some(c) then 1 else 0
    ensures peer.Some? ==> ok && peer.value < s.next && status == AnswerStatus
    ensures forall i :: 0 <= i < |s.asked| ==> s.asked[i] < MAX_FORWARDS
    ensures s.next <= 2 * |targets| + |rounds|
    ensures Wf(s0) && s0.endings == [] && s0.start == Tally(Counts(0, 0, 0), Refusals(targets, Reach(targets)))
    ensures ok && peer.None? ==> status == StatusOf(end, s0, to, rounds)
  {
    var n;
    s, ok, n := BuildLegs(targets);
    s0 := s;
    peer, status, end := None, if |s.legs| > 0 then NoAnswer else ChanUnavail, Pending;
    ForwardLimit(s);
    if ok {
      WaitKeeps(s, to, status, rounds);
      WaitStatus(s, to, status, rounds);
      assert s.endings + Causes(s, to, rounds) == Causes(s, to, rounds);
      var o := WaitForAnswer(s, to, status, rounds);
      ForwardLimit(o.s);
      s, peer, end := o.s, o.peer, o.end;
      status := if peer.Some? then AnswerStatus else o.status;
      if end == Pending { return; }
    }
    s := Finish(s, peer);
  }

  /** The status of a dial nobody answered: CANCEL when the caller stopped it, the verdict on the refused targets
      and the causes read off the rounds when no leg is left, and else NOANSWER, or CHANUNAVAIL when there was
      no leg from the start. */
  ghost function StatusOf(end: End, s: Switch, to: int, rounds: seq<Round>): Status
    requires |s.asked| == |s.legs|
  {
    var first := if |s.legs| > 0 then NoAnswer else ChanUnavail;
    match end
    case Cancelled => Cancel
    case NoLegs => Verdict(first, s.start, Causes(s, to, rounds))
    case _ => first
  }

  /** Hanging up what is left leaves every channel hung up once, but for the peer. */
  method Finish(s: Switch, peer: Option<Chan>) returns (s': Switch)
    requires Wf(s) && (peer.Some? ==> HangUps(s, peer.value) == 0 && peer.value < s.next)
    ensures forall c: Chan :: HangUps(s', c) == if c < s.next && peer != Some(c) then 1 else 0
    ensures s'.next == s.next && s'.asked == s.asked
  {
    s' := HangupTree(s, peer);
    forall c: Chan ensures HangUps(s', c) == if c < s.next && peer != Some(c) then 1 else 0 {
      assert HangUps(s, c) + Held(s.legs, c) == if c < s.next then 1 else 0;
    }
  }

  lemma ForwardLimit(s: Switch)
    requires Wf(s)
    ensures forall i :: 0 <= i < |s.asked| ==> s.asked[i] < MAX_FORWARDS
  {
  }
}

/** MeetMe: the global list of conferences, looked up, built and freed by many callers.

    find_conf looks a number up under conflock, lets the lock go, and only then calls build_conf, which
    takes it again; each stretch under the lock is one step here, and the steps of different callers
    interleave freely. */
module MeetMeRegistry {
  import opened Common

  /** A conference: the address it was allocated at, and its number. */
  datatype Conf = Conf(id: nat, no: string)

  // ---- The list ----

  function Found(confs: seq<Conf>, no: string): Option<Conf> {
    if confs == [] then None else if confs[0].no == no then Some(confs[0]) else Found(confs[1..], no)
  }

  function Removed(confs: seq<Conf>, id: nat): seq<Conf> {
    if confs == [] then [] else if confs[0].id == id then confs[1..] else [confs[0]] + Removed(confs[1..], id)
  }

  ghost function Numbers(confs: seq<Conf>): set<string> {
    if confs == [] then {} else {confs[0].no} + Numbers(confs[1..])
  }

  ghost function Addresses(confs: seq<Conf>): set<nat> {
    if confs == [] then {} else {confs[0].id} + Addresses(confs[1..])
  }

  /** No number and no address is on the list twice. */
  ghost predicate Unique(confs: seq<Conf>) {
    confs == [] ||
    (confs[0].no !in Numbers(confs[1..]) && confs[0].id !in Addresses(confs[1..]) && Unique(confs[1..]))
  }

  lemma {:induction false} FoundMeaning(confs: seq<Conf>, no: string)
    ensures Found(confs, no).Some? <==> no in Numbers(confs)
    ensures Found(confs, no).Some? ==> Found(confs, no).value.no == no && Found(confs, no).value in confs
                                       && Found(confs, no).value.id in Addresses(confs)
  {
    if confs == [] {
    } else {
      FoundMeaning(confs[1..], no);
    }
  }

  lemma {:induction false} RemovedKeeps(confs: seq<Conf>, id: nat)
    requires Unique(confs)
    ensures Unique(Removed(confs, id)) && id !in Addresses(Removed(confs, id))
    ensures Numbers(Removed(confs, id)) <= Numbers(confs) && Addresses(Removed(confs, id)) == Addresses(confs) - {id}
    ensures forall c :: c in Removed(confs, id) ==> c in confs
  {
    if confs == [] || confs[0].id == id {
    } else {
      RemovedKeeps(confs[1..], id);
      assert Removed(confs, id)[1..] == Removed(confs[1..], id);
    }
  }

  /** On a list without repetitions a number or an address names one conference. */
  lemma {:induction false} OneEach(confs: seq<Conf>, c: Conf, d: Conf)
    requires Unique(confs) && c in confs && d in confs
    ensures c.no == d.no || c.id == d.id ==> c == d
  {
    InNumbers(confs[1..], c);
    InNumbers(confs[1..], d);
    if c in confs[1..] && d in confs[1..] { OneEach(confs[1..], c, d); }
  }

  lemma {:induction false} InNumbers(confs: seq<Conf>, c: Conf)
    ensures c in confs ==> c.no in Numbers(confs) && c.id in Addresses(confs)
  {
    if confs == [] {
    } else {
      InNumbers(confs[1..], c);
    }
  }

  lemma PassOver(before: seq<Conf>, rest: seq<Conf>, id: nat)
    requires rest != [] && rest[0].id != id
    ensures before + rest == before + [rest[0]] + rest[1..]
    ensures before + Removed(rest, id) == before + [rest[0]] + Removed(rest[1..], id)
  {
  }

  /** The list as the code walks it. */
  class Registry {
    var confs: seq<Conf>

    method Search(no: string) returns (conf: Option<Conf>)
      ensures conf == Found(confs, no)
    {
      var rest := confs;
      while rest != []
        invariant Found(confs, no) == Found(rest, no)
        decreases |rest|
      {
        if rest[0].no == no { return Some(rest[0]); }
        rest := rest[1..];
      }
      conf := None;
    }

    /** Looks again, now under the lock it builds under, and makes the conference only if it is missing.
        `address` is what malloc gives, None when it or the device fails. */
    method BuildConf(no: string, make: bool, address: Option<nat>) returns (conf: Option<Conf>)
      modifies this
      ensures (confs, conf) == Built(old(confs), no, make, address)
    {
      conf := Search(no);
      if conf.None? && make && address.Some? {
        conf := Some(Conf(address.value, no));
        confs := [conf.value] + confs;
      }
    }

    /** Unlinks the conference at an address. */
    method ConfFree(id: nat)
      modifies this`confs
      ensures confs == Removed(old(confs), id)
    {
      var before, rest := [], confs;
      while rest != [] && rest[0].id != id
        invariant confs == old(confs) == before + rest
        invariant Removed(confs, id) == before + Removed(rest, id)
        decreases |rest|
      {
        PassOver(before, rest, id);
        before, rest := before + [rest[0]], rest[1..];
      }
      if rest != [] { confs := before + rest[1..]; }
    }
  }

  // ---- Interleavings ----

  function Built(confs: seq<Conf>, no: string, make: bool, address: Option<nat>): (seq<Conf>, Option<Conf>) {
    if Found(confs, no).Some? then (confs, Found(confs, no))
    else if make && address.Some? then ([Conf(address.value, no)] + confs, Some(Conf(address.value, no)))
    else (confs, None)
  }

  /** Where a caller is: outside, between its failed lookup and build_conf, or holding a conference. */
  datatype Caller = Idle | Missed(no: string) | Holds(conf: Conf)

  datatype State = State(confs: seq<Conf>, callers: map<nat, Caller>)

  /** A caller looks a number up, builds the one it missed at an address malloc gives, or frees the one it
      holds. */
  datatype Step = Find(t: nat, no: string) | Build(t: nat, make: bool, address: Option<nat>) | Free(t: nat)

  function At(s: State, t: nat): Caller {
    if t in s.callers then s.callers[t] else Idle
  }

  /** malloc gives no address that is on the list; a step in which it did is none. */
  ghost predicate Possible(s: State, step: Step) {
    step.Build? && step.address.Some? ==> step.address.value !in Addresses(s.confs)
  }

  ghost function Stepped(s: State, step: Step): State {
    match step
    case Find(t, no) =>
      if At(s, t) != Idle then s
      else (match Found(s.confs, no)
            case Some(conf) => s.(callers := s.callers[t := Holds(conf)])
            case None => s.(callers := s.callers[t := Missed(no)]))
    case Build(t, make, address) =>
      if !At(s, t).Missed? || !Possible(s, step) then s
      else
        var (confs, conf) := Built(s.confs, At(s, t).no, make, address);
        State(confs, s.callers[t := if conf.Some? then Holds(conf.value) else Idle])
    case Free(t) =>
      if !At(s, t).Holds? then s
      else State(Removed(s.confs, At(s, t).conf.id), s.callers[t := Idle])
  }

  /** The state after the first n steps. */
  ghost function Ran(s: State, steps: seq<Step>, n: nat): State
    requires n <= |steps|
  {
    if n == 0 then s else Stepped(Ran(s, steps, n - 1), steps[n - 1])
  }

  const START := State([], map[])

  lemma StepUnique(s: State, step: Step)
    requires Unique(s.confs)
    ensures Unique(Stepped(s, step).confs)
  {
    match step
    case Find(t, no) =>
    case Build(t, make, address) =>
      if At(s, t).Missed? {
        FoundMeaning(s.confs, At(s, t).no);
        var confs := Stepped(s, step).confs;
        assert confs != s.confs ==> confs[1..] == s.confs;
      }
    case Free(t) => if At(s, t).Holds? { RemovedKeeps(s.confs, At(s, t).conf.id); }
  }

  lemma {:induction false} RunUnique(steps: seq<Step>, n: nat)
    requires n <= |steps|
    ensures Unique(Ran(START, steps, n).confs)
  {
    if n == 0 {
    } else {
      RunUnique(steps, n - 1);
      StepUnique(Ran(START, steps, n - 1), steps[n - 1]);
    }
  }

  lemma {:induction false} UniqueAt(confs: seq<Conf>, i: nat, j: nat)
    requires Unique(confs) && i < j < |confs|
    ensures confs[i].no != confs[j].no && confs[i].id != confs[j].id
  {
    if i == 0 { InNumbers(confs[1..], confs[1..][j - 1]); } else { UniqueAt(confs[1..], i - 1, j - 1); }
  }

  /** However callers interleave, and whatever addresses are used again, the list never holds two conferences
      with one number. */
  lemma NumbersAreUnique(steps: seq<Step>, n: nat, i: nat, j: nat)
    requires n <= |steps| && i < j < |Ran(START, steps, n).confs|
    ensures Ran(START, steps, n).confs[i].no != Ran(START, steps, n).confs[j].no
  {
    RunUnique(steps, n);
    UniqueAt(Ran(START, steps, n).confs, i, j);
  }

  /** A caller ends up with a conference under its number exactly when one is listed, or one is wanted and
      granted; it is listed then, and a lookup finds it. */
  lemma BuiltMeaning(confs: seq<Conf>, no: string, make: bool, address: Option<nat>)
    ensures var (confs', conf) := Built(confs, no, make, address);
            && (conf.Some? <==> no in Numbers(confs) || (make && address.Some?))
            && (conf.Some? ==> conf.value.no == no && Found(confs', no) == conf)
            && (confs' == confs || (no !in Numbers(confs) && |confs'| == |confs| + 1 && confs'[1..] == confs))
            && (no !in Numbers(confs) && conf.Some? ==> address == Some(conf.value.id))
            && forall no' :: no' != no ==> Found(confs', no') == Found(confs, no')
  {
    FoundMeaning(confs, no);
    var confs' := Built(confs, no, make, address).0;
    if confs' != confs { assert confs'[1..] == confs; }
  }

  // ---- Addresses that are not used again ----

  /** The addresses malloc gave in the first n steps. */
  ghost function Given(steps: seq<Step>, n: nat): set<nat>
    requires n <= |steps|
  {
    if n == 0 then {} else Given(steps, n - 1) + GivenBy(steps[n - 1])
  }

  ghost function GivenBy(step: Step): set<nat> {
    if step.Build? && step.address.Some? then {step.address.value} else {}
  }

  /** No address is given twice in the first n steps. */
  ghost predicate NoReuse(steps: seq<Step>, n: nat)
    requires n <= |steps|
  {
    n == 0 || (NoReuse(steps, n - 1) && GivenBy(steps[n - 1]) !! Given(steps, n - 1))
  }

  /** The conference a caller holds was given an address, and if one at its address is still listed it is that
      very conference. */
  ghost predicate HeldOk(s: State, given: set<nat>, t: nat) {
    At(s, t).Holds? ==>
      && At(s, t).conf.id in given
      && (At(s, t).conf.id in Addresses(s.confs) ==> At(s, t).conf in s.confs)
  }

  ghost predicate Inv(s: State, given: set<nat>) {
    Unique(s.confs) && Addresses(s.confs) <= given && forall t :: HeldOk(s, given, t)
  }

  lemma {:induction false} RemovedHolds(confs: seq<Conf>, id: nat, c: Conf)
    requires c in confs && c.id != id
    ensures c in Removed(confs, id)
  {
    if confs[0].id == id || c == confs[0] {
    } else {
      RemovedHolds(confs[1..], id, c);
    }
  }

  lemma StepKeeps(s: State, given: set<nat>, step: Step)
    requires Inv(s, given) && GivenBy(step) !! given
    ensures Inv(Stepped(s, step), given + GivenBy(step))
  {
    var (s', given') := (Stepped(s, step), given + GivenBy(step));
    StepUnique(s, step);
    match step
    case Find(t, no) =>
      FoundMeaning(s.confs, no);
      forall u ensures HeldOk(s', given', u) { assert HeldOk(s, given, u); }
    case Build(t, make, address) =>
      if At(s, t).Missed? {
        FoundMeaning(s.confs, At(s, t).no);
        assert s'.confs != s.confs ==> s'.confs[1..] == s.confs;
      }
      forall u ensures HeldOk(s', given', u) { assert HeldOk(s, given, u); }
    case Free(t) =>
      if At(s, t).Holds? {
        var id := At(s, t).conf.id;
        RemovedKeeps(s.confs, id);
        forall u ensures HeldOk(s', given', u) {
          assert HeldOk(s, given, u);
          if At(s', u).Holds? && At(s, u).conf.id != id && At(s, u).conf in s.confs {
            RemovedHolds(s.confs, id, At(s, u).conf);
          }
        }
      } else {
        forall u ensures HeldOk(s', given', u) { assert HeldOk(s, given, u); }
      }
  }

  lemma {:induction false} RunKeeps(steps: seq<Step>, n: nat)
    requires n <= |steps| && NoReuse(steps, n)
    ensures Inv(Ran(START, steps, n), Given(steps, n))
  {
    if n == 0 {
    } else {
      RunKeeps(steps, n - 1);
      StepKeeps(Ran(START, steps, n - 1), Given(steps, n - 1), steps[n - 1]);
    }
  }

  /** While no address is used again, two callers who hold conferences that are still listed, under one
      number, hold the same conference, whichever of them missed it and built it. */
  lemma CallersMeet(steps: seq<Step>, n: nat, t: nat, u: nat)
    requires n <= |steps| && NoReuse(steps, n)
    requires var s := Ran(START, steps, n);
             && At(s, t).Holds? && At(s, u).Holds? && At(s, t).conf.no == At(s, u).conf.no
             && At(s, t).conf.id in Addresses(s.confs) && At(s, u).conf.id in Addresses(s.confs)
    ensures At(Ran(START, steps, n), t).conf == At(Ran(START, steps, n), u).conf
  {
    var s := Ran(START, steps, n);
    RunKeeps(steps, n);
    assert HeldOk(s, Given(steps, n), t) && HeldOk(s, Given(steps, n), u);
    OneEach(s.confs, At(s, t).conf, At(s, u).conf);
  }

  /** Some run leads there. */
  ghost predicate Reached(s: State) {
    exists steps: seq<Step> :: s == Ran(START, steps, |steps|)
  }

  lemma {:induction false} RanPrefix(steps: seq<Step>, step: Step, n: nat)
    requires n <= |steps|
    ensures Ran(START, steps + [step], n) == Ran(START, steps, n)
  {
    if n == 0 {
    } else {
      RanPrefix(steps, step, n - 1);
    }
  }

  lemma ReachedNext(s: State, step: Step)
    requires Reached(s)
    ensures Reached(Stepped(s, step))
  {
    var steps: seq<Step> :| s == Ran(START, steps, |steps|);
    RanPrefix(steps, step, |steps|);
    assert Stepped(s, step) == Ran(START, steps + [step], |steps + [step]|);
  }

  /** A caller that misses a number makes the conference. */
  lemma Makes(s: State, t: nat, no: string, id: nat)
    requires Reached(s) && At(s, t) == Idle && Found(s.confs, no).None? && id !in Addresses(s.confs)
    ensures Reached(State([Conf(id, no)] + s.confs, s.callers[t := Holds(Conf(id, no))]))
  {
    ReachedNext(s, Find(t, no));
    var s' := Stepped(s, Find(t, no));
    ReachedNext(s', Build(t, true, Some(id)));
    assert s'.callers[t := Holds(Conf(id, no))] == s.callers[t := Holds(Conf(id, no))];
  }

  /** Two callers hold one conference, and one of them frees it. */
  lemma LeftHolding(a: Conf)
    ensures Reached(State([], map[0 := Holds(a), 1 := Idle]))
  {
    assert START == Ran(START, [], 0);
    Makes(START, 0, a.no, a.id);
    var s := State([a], map[0 := Holds(a)]);
    assert [Conf(a.id, a.no)] + [] == [a];
    ReachedNext(s, Find(1, a.no));
    var s' := State([a], map[0 := Holds(a), 1 := Holds(a)]);
    assert Stepped(s, Find(1, a.no)) == s';
    ReachedNext(s', Free(1));
    assert Stepped(s', Free(1)) == State([], map[0 := Holds(a), 1 := Idle]);
  }

  /** With an address used again they need not: one may hold a conference long freed, at whose address another
      is listed, while its number is listed elsewhere. */
  lemma AddressReused()
    ensures exists s: State ::
      && Reached(s) && At(s, 0) == Holds(Conf(1, "1")) && At(s, 3) == Holds(Conf(2, "1"))
      && 1 in Addresses(s.confs) && 2 in Addresses(s.confs)
  {
    var (a, b, c) := (Conf(1, "1"), Conf(1, "2"), Conf(2, "1"));
    LeftHolding(a);
    var s := State([], map[0 := Holds(a), 1 := Idle]);
    Makes(s, 2, "2", 1);
    var s' := State([b], s.callers[2 := Holds(b)]);
    assert [b] + [] == [b] && [b][1..] == [];
    Makes(s', 3, "1", 2);
    assert ([c] + [b])[1..] == [b];
  }
}

/** Proc: dialplan procedures as call frames over one channel.

    Proc saves what it is about to overwrite, jumps into the context of the procedure, runs its steps
    one by one and puts back what it saved.  A step may do anything to the channel, including call Proc
    again; a value of type Call is everything the outside world does during one call, nested calls
    included, so a statement for every Call is a statement for every nested run. */
module ProcCalls {
  import opened Common

  const MAX_DEPTH := 7
  const PROC_EXIT_RESULT := 1024

  /** The names of channel variables: those of Proc itself, ARG1, ARG2, ..., and all others. */
  datatype Name = DEPTH | HANGUP | EXTEN | CONTEXT | PRIORITY | OFFSET | Arg(x: nat) | OtherName(text: string)

  type Vars = map<Name, string>

  /** A place in the dialplan. */
  datatype Place = Place(context: string, exten: string, priority: int)

  const NOWHERE := Place("", "", 0)

  /** A channel, as far as Proc looks at it: its variables, where it is, where the outermost Proc was
      called from, and its flags. */
  datatype State = State(vars: Vars, at: Place, proc: Place, autoloop: bool, softHangup: bool, asyncGoto: bool)

  /** One call of Proc: its arguments, whether its context has an "s" extension, the steps its loop finds
      to execute, and whether the step PROC_OFFSET points at exists in the caller. */
  datatype Call = Call(name: string, args: seq<string>, exists_: bool, body: seq<Iter>, offsetExists: bool)

  /** One step: what its application does, and the result it returns. */
  datatype Iter = Iter(acts: seq<Act>, res: int)

  /** An application leaves the channel in any state, or calls Proc.  One that keepsDepth does not write
      PROC_DEPTH. */
  datatype Act = Change(after: State, keepsDepth: bool) | Invoke(call: Call)

  // ---- Variables ----

  function Text(name: Name): string {
    match name
    case DEPTH => "PROC_DEPTH"
    case HANGUP => "PROC_IN_HANGUP"
    case EXTEN => "PROC_EXTEN"
    case CONTEXT => "PROC_CONTEXT"
    case PRIORITY => "PROC_PRIORITY"
    case OFFSET => "PROC_OFFSET"
    case Arg(x) => "ARG" + Decimal(x)
    case OtherName(text) => text
  }

  /** Proc's names are told apart by their text. */
  lemma NamesDiffer(m: Name, n: Name)
    requires !m.OtherName? && !n.OtherName? && Text(m) == Text(n)
    ensures m == n
  {
    if m.Arg? && n.Arg? {
      assert Text(m)[3..] == Decimal(m.x) && Text(n)[3..] == Decimal(n.x);
      DecimalInjective(m.x, n.x);
    } else {
      assert Text(m)[0] == Text(n)[0] && |Text(m)| == |Text(n)|;
      if |Text(m)| == 10 { assert Text(m)[5] == Text(n)[5]; }
    }
  }

  function Get(vars: Vars, name: Name): Option<string> {
    if name in vars then Some(vars[name]) else None
  }

  function Put(vars: Vars, name: Name, value: Option<string>): Vars {
    match value case Some(text) => vars[name := text] case None => vars - {name}
  }

  /** ARG1.. take the given values. */
  function PutArgs(vars: Vars, args: seq<Option<string>>): Vars {
    if args == [] then vars
    else Put(PutArgs(vars, args[..|args| - 1]), Arg(|args|), args[|args| - 1])
  }

  function GetArgs(vars: Vars, n: nat): (args: seq<Option<string>>)
    ensures |args| == n
  {
    if n == 0 then [] else GetArgs(vars, n - 1) + [Get(vars, Arg(n))]
  }

  function Depth(st: State): int {
    match Get(st.vars, DEPTH)
    case Some(text) => (match ScanInt(text) case Some(d) => d case None => 0)
    case None => 0
  }

  // ---- One frame ----

  function FullName(call: Call): string {
    "proc-" + call.name
  }

  /** The depth goes up by one; a channel on its "h" extension is marked as hanging up. */
  function Marked(st: State): State {
    var vars := Put(st.vars, DEPTH, Some(PrintInt(Depth(st) + 1)));
    st.(vars := if st.at.exten == "h" then Put(vars, HANGUP, Some("1")) else vars)
  }

  predicate InHangup(st: State) {
    match Get(st.vars, HANGUP)
    case Some(text) => ScanInt(text).Some? && ScanInt(text).value != 0
    case None => false
  }

  function PutCaller(vars: Vars, exten: Option<string>, context: Option<string>, priority: Option<string>): Vars {
    Put(Put(Put(vars, EXTEN, exten), CONTEXT, context), PRIORITY, priority)
  }

  function Given(args: seq<string>): seq<Option<string>> {
    seq(|args|, i requires 0 <= i < |args| => Some(args[i]))
  }

  /** What a call saves. */
  datatype Frame = Frame(
    at: Place, autoloop: bool, outermost: bool,
    exten: Option<string>, context: Option<string>, priority: Option<string>, offset: Option<string>,
    args: seq<Option<string>>)

  function FrameOf(call: Call, st: State): Frame {
    Frame(st.at, st.autoloop, st.proc.context == "",
          Get(st.vars, EXTEN), Get(st.vars, CONTEXT), Get(st.vars, PRIORITY), Get(st.vars, OFFSET),
          GetArgs(st.vars, |call.args|))
  }

  /** The variables with the caller's place recorded in them. */
  function WithCaller(st: State): Vars {
    Put(PutCaller(st.vars, Some(st.at.exten), Some(st.at.context), Some(PrintInt(st.at.priority))), OFFSET, None)
  }

  /** The channel as the first step of the procedure finds it. */
  function Entered(call: Call, st: State): State {
    State(PutArgs(WithCaller(st), Given(call.args)), Place(FullName(call), "s", 1),
          if st.proc.context == "" then st.at else st.proc, true, st.softHangup, st.asyncGoto)
  }

  /** The variables put back; PROC_OFFSET comes last, after it has been read. */
  function VarsBack(call: Call, st: State, last: State): Vars {
    var vars := PutArgs(Put(last.vars, DEPTH, Some(PrintInt(Depth(st)))), GetArgs(st.vars, |call.args|));
    PutCaller(vars, Get(st.vars, EXTEN), Get(st.vars, CONTEXT), Get(st.vars, PRIORITY))
  }

  /** How far past the caller's own step the procedure asked to continue. */
  function Jump(call: Call, vars: Vars): int {
    match Get(vars, OFFSET)
    case Some(text) => if ScanInt(text).Some? && call.offsetExists then ScanInt(text).value else 0
    case None => 0
  }

  /** Where the channel goes on: a jump out of the procedure's context stays where it went. */
  function PlaceBack(call: Call, st: State, last: State): Place {
    if !SameText(last.at.context, FullName(call)) then last.at
    else if last.asyncGoto then Place(st.at.context, last.at.exten, st.at.priority)
    else Place(st.at.context, st.at.exten, st.at.priority + Jump(call, VarsBack(call, st, last)))
  }

  /** The channel after the frame that was entered from st is left, its last step having left it as `last`. */
  function Restored(call: Call, st: State, last: State): State {
    State(Put(VarsBack(call, st, last), OFFSET, Get(st.vars, OFFSET)), PlaceBack(call, st, last),
          if st.proc.context == "" then NOWHERE else last.proc, st.autoloop, last.softHangup, last.asyncGoto)
  }

  // ---- Nested runs ----

  /** How a run ended: the channel, the result, whether it returned at all, and the largest number of
      frames that were active at once during it.  In hangup mode Proc never returns. */
  datatype Outcome = Outcome(st: State, res: int, returned: bool, peak: nat)

  function Onward(st: State): State {
    st.(at := st.at.(priority := st.at.priority + 1))
  }

  function Max(a: nat, b: nat): nat {
    if a < b then b else a
  }

  function Exec(call: Call, st: State): Outcome
    decreases call, 1, 0
  {
    if Depth(st) >= MAX_DEPTH then Outcome(st, 0, true, 0)
    else if call.name == "" || !call.exists_ then Outcome(Marked(st), 0, true, 0)
    else
      var b := Body(call, Entered(call, Marked(st)), 0, PrintInt(Depth(st) + 1));
      if b.returned && !InHangup(Marked(st)) then Outcome(Restored(call, st, b.st), b.res, true, 1 + b.peak)
      else Outcome(b.st, 0, false, 1 + b.peak)
  }

  /** The steps from number i on. */
  function Body(call: Call, st: State, i: nat, depth: string): Outcome
    requires i <= |call.body|
    decreases call, 0, |call.body| - i
  {
    if i == |call.body| then Outcome(st, 0, true, 0)
    else
      var a := Acts(call.body[i].acts, st.(vars := Put(st.vars, DEPTH, Some(depth))));
      var res := call.body[i].res;
      if !a.returned then a.(res := 0)
      else if res != 0 then a.(res := if res == PROC_EXIT_RESULT then 0 else res)
      else if !SameText(a.st.at.context, FullName(call)) || a.st.softHangup then a.(res := 0)
      else
        var rest := Body(call, Onward(a.st), i + 1, depth);
        rest.(peak := Max(a.peak, rest.peak))
  }

  /** What one application does, act after act. */
  function Acts(acts: seq<Act>, st: State): Outcome
    decreases acts, 0, 0
  {
    if acts == [] then Outcome(st, 0, true, 0)
    else
      var o := One(acts[0], st);
      if !o.returned then o
      else
        var rest := Acts(acts[1..], o.st);
        rest.(peak := Max(o.peak, rest.peak))
  }

  function One(act: Act, st: State): Outcome
    decreases act, 0, 0
  {
    match act
    case Change(after, keepsDepth) => Outcome(Changed(st, after, keepsDepth), 0, true, 0)
    case Invoke(call) => Exec(call, st)
  }

  function Changed(st: State, after: State, keepsDepth: bool): State {
    if keepsDepth then after.(vars := Put(after.vars, DEPTH, Get(st.vars, DEPTH))) else after
  }

  // ---- Restoration ----

  predicate IsArg(name: Name, n: nat) {
    name.Arg? && 1 <= name.x <= n
  }

  lemma {:induction false} PutArgsGet(vars: Vars, args: seq<Option<string>>, name: Name)
    ensures Get(PutArgs(vars, args), name) == if IsArg(name, |args|) then args[name.x - 1] else Get(vars, name)
  {
    if args == [] {
    } else {
      PutArgsGet(vars, args[..|args| - 1], name);
    }
  }

  lemma {:induction false} GetArgsAt(vars: Vars, n: nat, x: nat)
    requires 1 <= x <= n
    ensures GetArgs(vars, n)[x - 1] == Get(vars, Arg(x))
  {
    if x == n {
    } else {
      GetArgsAt(vars, n - 1, x);
    }
  }

  /** Two stores that agree on the arguments give the same arguments. */
  lemma {:induction false} SameArgs(vars: Vars, vars': Vars, n: nat)
    requires forall x :: Get(vars, Arg(x)) == Get(vars', Arg(x))
    ensures GetArgs(vars, n) == GetArgs(vars', n)
  {
    if n == 0 {
    } else {
      SameArgs(vars, vars', n - 1);
    }
  }

  lemma CallerArgs(st: State, n: nat)
    ensures GetArgs(WithCaller(st), n) == GetArgs(st.vars, n)
  {
  }

  /** Raising the depth changes nothing a call saves. */
  lemma MarkedFrame(call: Call, st: State)
    ensures FrameOf(call, Marked(st)) == FrameOf(call, st)
  {
    SameArgs(Marked(st).vars, st.vars, |call.args|);
  }

  /** Marking a call raises the depth by one and leaves every other variable but the hangup mark alone, which
      is on afterwards exactly when it was or the channel is on its "h" extension. */
  lemma MarkedMeaning(st: State, name: Name)
    ensures Depth(Marked(st)) == Depth(st) + 1
    ensures InHangup(Marked(st)) <==> st.at.exten == "h" || InHangup(st)
    ensures name != DEPTH && name != HANGUP ==> Get(Marked(st).vars, name) == Get(st.vars, name)
  {
    ScanPrint(Depth(st) + 1);
    ScanPrint(1);
    assert PrintInt(1) == "1";
  }

  /** What the first step of a procedure finds: the arguments of the call in ARG1, ARG2 and so on, the caller's
      place in PROC_EXTEN, PROC_CONTEXT and PROC_PRIORITY, no PROC_OFFSET, every other variable as it was, and
      itself at the first step of extension s of the procedure's context. */
  lemma EnteredMeaning(call: Call, st: State, name: Name)
    ensures var e := Entered(call, st);
            && (IsArg(name, |call.args|) ==> Get(e.vars, name) == Some(call.args[name.x - 1]))
            && Get(e.vars, EXTEN) == Some(st.at.exten) && Get(e.vars, CONTEXT) == Some(st.at.context)
            && Get(e.vars, PRIORITY) == Some(PrintInt(st.at.priority)) && Get(e.vars, OFFSET) == None
            && (!IsArg(name, |call.args|) && name != EXTEN && name != CONTEXT && name != PRIORITY && name != OFFSET
                ==> Get(e.vars, name) == Get(st.vars, name))
            && e.at == Place("proc-" + call.name, "s", 1) && e.autoloop
            && (st.proc.context == "" ==> e.proc == st.at) && (st.proc.context != "" ==> e.proc == st.proc)
  {
    PutArgsGet(WithCaller(st), Given(call.args), name);
    PutArgsGet(WithCaller(st), Given(call.args), EXTEN);
    PutArgsGet(WithCaller(st), Given(call.args), CONTEXT);
    PutArgsGet(WithCaller(st), Given(call.args), PRIORITY);
    PutArgsGet(WithCaller(st), Given(call.args), OFFSET);
  }

  predicate Reserved(name: Name) {
    name == DEPTH || name == EXTEN || name == CONTEXT || name == PRIORITY || name == OFFSET
  }

  lemma CallerGet(vars: Vars, exten: Option<string>, context: Option<string>, priority: Option<string>, name: Name)
    ensures Get(PutCaller(vars, exten, context, priority), name)
         == match name case EXTEN => exten case CONTEXT => context case PRIORITY => priority case _ => Get(vars, name)
  {
  }

  /** Proc's own variables and the arguments of the call are back at their values before the call, the
      depth is the number it was, and every other variable is as the procedure left it. */
  lemma VarsRestored(call: Call, st: State, last: State, name: Name)
    ensures Get(Restored(call, st, last).vars, name)
         == if name == DEPTH then Some(PrintInt(Depth(st)))
            else if IsArg(name, |call.args|) || Reserved(name) then Get(st.vars, name)
            else Get(last.vars, name)
    ensures Get(VarsBack(call, st, last), OFFSET) == Get(last.vars, OFFSET)
  {
    BackGet(call, st, last, name);
    BackGet(call, st, last, OFFSET);
  }

  lemma BackGet(call: Call, st: State, last: State, name: Name)
    ensures Get(VarsBack(call, st, last), name)
         == if name == DEPTH then Some(PrintInt(Depth(st)))
            else if IsArg(name, |call.args|) || (Reserved(name) && name != OFFSET) then Get(st.vars, name)
            else Get(last.vars, name)
  {
    var args, base := GetArgs(st.vars, |call.args|), Put(last.vars, DEPTH, Some(PrintInt(Depth(st))));
    PutArgsGet(base, args, name);
    CallerGet(PutArgs(base, args), Get(st.vars, EXTEN), Get(st.vars, CONTEXT), Get(st.vars, PRIORITY), name);
    if IsArg(name, |call.args|) { GetArgsAt(st.vars, |call.args|, name.x); }
  }

  ghost predicate Enters(call: Call, st: State) {
    Depth(st) < MAX_DEPTH && call.name != "" && call.exists_
  }

  /** The channel as the last step of the procedure left it. */
  ghost function LastState(call: Call, st: State): State {
    Body(call, Entered(call, Marked(st)), 0, PrintInt(Depth(st) + 1)).st
  }

  /** Whatever its steps and the calls nested in them did, a call that returns puts back the caller's
      arguments, Proc variables, depth and autoloop flag, and, when it ends inside its own context, the
      caller's place; a jump out of the context stays where it went. */
  lemma CallRestores(call: Call, st: State, name: Name)
    requires Enters(call, st) && Exec(call, st).returned
    ensures var (o, last) := (Exec(call, st).st, LastState(call, st));
            && (IsArg(name, |call.args|) || (Reserved(name) && name != DEPTH)
                ==> Get(o.vars, name) == Get(st.vars, name))
            && (!IsArg(name, |call.args|) && !Reserved(name) ==> Get(o.vars, name) == Get(last.vars, name))
            && Depth(o) == Depth(st)
            && o.autoloop == st.autoloop
            && (st.proc.context == "" ==> o.proc == NOWHERE)
            && o.at == if !SameText(last.at.context, FullName(call)) then last.at
                       else if last.asyncGoto then Place(st.at.context, last.at.exten, st.at.priority)
                       else Place(st.at.context, st.at.exten, st.at.priority + Jump(call, last.vars))
  {
    var last := LastState(call, st);
    VarsRestored(call, st, last, name);
    VarsRestored(call, st, last, DEPTH);
    ScanPrint(Depth(st));
    assert Exec(call, st).st == Restored(call, st, last);
  }

  /** A procedure that ends in its own context with PROC_OFFSET set to d has its caller go on d steps further
      when that step exists, and where it was when it does not, or when there is no number in the variable. */
  lemma OffsetMeaning(call: Call, st: State, d: int)
    requires Enters(call, st) && Exec(call, st).returned
    requires var last := LastState(call, st); SameText(last.at.context, "proc-" + call.name) && !last.asyncGoto
    ensures var (o, last) := (Exec(call, st).st, LastState(call, st));
            && o.at.context == st.at.context && o.at.exten == st.at.exten
            && (Get(last.vars, OFFSET) == Some(PrintInt(d)) ==>
                o.at.priority == if call.offsetExists then st.at.priority + d else st.at.priority)
            && (Get(last.vars, OFFSET) == None ==> o.at.priority == st.at.priority)
  {
    CallRestores(call, st, OFFSET);
    ScanPrint(d);
  }

  // ---- Steps in order ----

  /** A step that does nothing and succeeds. */
  predicate Quiet(iter: Iter) {
    iter.acts == [] && iter.res == 0
  }

  /** A procedure goes through its steps one by one: with nothing happening in the first k of them, step k is
      reached at the priority k further on, in the same place. */
  lemma {:induction false} QuietSteps(call: Call, st: State, i: nat, k: nat, depth: string)
    requires i + k <= |call.body| && !st.softHangup && SameText(st.at.context, FullName(call))
    requires forall j :: i <= j < i + k ==> Quiet(call.body[j])
    ensures var vars := if k == 0 then st.vars else Put(st.vars, DEPTH, Some(depth));
            var there := st.(vars := vars, at := st.at.(priority := st.at.priority + k));
            var (o, o') := (Body(call, st, i, depth), Body(call, there, i + k, depth));
            o.st == o'.st && o.res == o'.res && o.returned == o'.returned
    decreases k
  {
    if k == 0 {
      assert st.(vars := st.vars, at := st.at.(priority := st.at.priority + 0)) == st;
    } else {
      var vars := Put(st.vars, DEPTH, Some(depth));
      var next := Onward(st.(vars := vars));
      assert Quiet(call.body[i]);
      QuietSteps(call, next, i + 1, k - 1, depth);
      assert Put(vars, DEPTH, Some(depth)) == vars;
    }
  }

  /** The result of a procedure is that of the first of its steps that has one, and 0 when that is the result of
      ProcExit; a step without a result that hangs up or leaves the context ends it with 0. */
  lemma StepEnds(call: Call, st: State, i: nat, depth: string)
    requires i < |call.body|
    ensures var (iter, o) := (call.body[i], Body(call, st, i, depth));
            var a := Acts(iter.acts, st.(vars := Put(st.vars, DEPTH, Some(depth))));
            && (a.returned && iter.res == 1024 ==> o.res == 0 && o.st == a.st)
            && (a.returned && iter.res != 0 && iter.res != 1024 ==> o.res == iter.res && o.st == a.st)
            && (a.returned && iter.res == 0 && (a.st.softHangup || !SameText(a.st.at.context, "proc-" + call.name))
                ==> o.res == 0 && o.st == a.st)
  {
  }

  /** Whatever a nested run does, its result is 0 or one of its own steps', and never that of ProcExit. */
  lemma {:induction false} ResultIsAStep(call: Call, st: State, i: nat, depth: string)
    requires i <= |call.body|
    ensures var o := Body(call, st, i, depth);
            o.res == 0 || (o.res != PROC_EXIT_RESULT && exists k :: i <= k < |call.body| && call.body[k].res == o.res)
    decreases |call.body| - i
  {
    if i == |call.body| {
    } else {
      var a := Acts(call.body[i].acts, st.(vars := Put(st.vars, DEPTH, Some(depth))));
      ResultIsAStep(call, Onward(a.st), i + 1, depth);
    }
  }

  /** A call that returns gives the result of its body, and one that did not enter gives 0.  A call refused as too
      deep leaves the channel as it is, and one turned away only marked; one that enters in hangup mode never
      returns, and one outside it does whenever its body does. */
  lemma CallResult(call: Call, st: State)
    ensures !Enters(call, st) ==> Exec(call, st).returned && Exec(call, st).res == 0
    ensures Depth(st) >= 7 ==> Exec(call, st).st == st
    ensures !Enters(call, st) && Depth(st) < 7 ==> Exec(call, st).st == Marked(st)
    ensures Enters(call, st) ==>
      var body := Body(call, Entered(call, Marked(st)), 0, PrintInt(Depth(st) + 1));
      && (Exec(call, st).returned <==> body.returned && st.at.exten != "h" && !InHangup(st))
      && (Exec(call, st).returned ==> Exec(call, st).res == body.res)
  {
    MarkedMeaning(st, HANGUP);
  }

  /** An application does one thing after another. */
  lemma {:induction false} ActsInOrder(a: seq<Act>, b: seq<Act>, st: State)
    ensures var (first, both) := (Acts(a, st), Acts(a + b, st));
            && (!first.returned ==> !both.returned && both.st == first.st)
            && (first.returned ==>
                both.st == Acts(b, first.st).st && both.returned == Acts(b, first.st).returned)
    decreases |a|
  {
    if a == [] {
      assert a + b == b;
    } else {
      assert (a + b)[1..] == a[1..] + b;
      ActsInOrder(a[1..], b, One(a[0], st).st);
    }
  }

  /** What one of them is: any change at all, or a call of Proc. */
  lemma OneAct(after: State, call: Call, st: State)
    ensures Acts([Change(after, false)], st).st == after && Acts([Change(after, false)], st).returned
    ensures Acts([Invoke(call)], st).st == Exec(call, st).st
    ensures Acts([Invoke(call)], st).returned == Exec(call, st).returned
  {
    assert [Change(after, false)][1..] == [] && [Invoke(call)][1..] == [];
  }

  /** A call that returns leaves the depth as it found it exactly when it entered its frame or was refused
      for being too deep: one turned away for a bad name or context leaves the depth one higher. */
  lemma DepthBackIff(call: Call, st: State)
    requires Exec(call, st).returned
    ensures Depth(Exec(call, st).st) == Depth(st) <==> Enters(call, st) || Depth(st) >= MAX_DEPTH
  {
    if Enters(call, st) { CallRestores(call, st, DEPTH); }
    ScanPrint(Depth(st) + 1);
  }

  /** One without a name is turned away at depth 0 and leaves depth 1. */
  lemma DepthLeftRaised(at: Place, args: seq<string>)
    ensures var st := State(map[], at, NOWHERE, false, false, false);
            Depth(st) == 0 && Depth(Exec(Call("", args, true, [], false), st).st) == 1
  {
    MarkedMeaning(State(map[], at, NOWHERE, false, false, false), DEPTH);
  }

  // ---- Depth ----

  ghost predicate CallKeeps(call: Call)
    decreases call
  {
    forall i :: 0 <= i < |call.body| ==> ActsKeep(call.body[i].acts)
  }

  ghost predicate ActsKeep(acts: seq<Act>)
    decreases acts
  {
    forall i :: 0 <= i < |acts| ==> ActKeeps(acts[i])
  }

  /** No application in the run writes PROC_DEPTH. */
  ghost predicate ActKeeps(act: Act)
    decreases act
  {
    match act case Change(_, keepsDepth) => keepsDepth case Invoke(call) => CallKeeps(call)
  }

  /** A run that starts at depth d keeps within the depth left to it and does not lower the depth. */
  ghost predicate Within(o: Outcome, d: int) {
    && (o.peak > 0 ==> o.peak + d <= MAX_DEPTH)
    && (o.returned ==> Depth(o.st) >= d)
  }

  lemma {:induction false} ExecWithin(call: Call, st: State)
    requires CallKeeps(call)
    ensures Within(Exec(call, st), Depth(st))
    decreases call, 1, 0
  {
    ScanPrint(Depth(st));
    ScanPrint(Depth(st) + 1);
    if Enters(call, st) {
      BodyWithin(call, Entered(call, Marked(st)), 0, Depth(st) + 1);
      VarsRestored(call, st, LastState(call, st), DEPTH);
    }
  }

  lemma {:induction false} BodyWithin(call: Call, st: State, i: nat, d: int)
    requires CallKeeps(call) && i <= |call.body|
    ensures var o := Body(call, st, i, PrintInt(d)); o.peak > 0 ==> o.peak + d <= MAX_DEPTH
    decreases call, 0, |call.body| - i
  {
    if i == |call.body| {
    } else {
      ScanPrint(d);
      var st' := st.(vars := Put(st.vars, DEPTH, Some(PrintInt(d))));
      ActsWithin(call.body[i].acts, st', d);
      var a := Acts(call.body[i].acts, st');
      BodyWithin(call, Onward(a.st), i + 1, d);
    }
  }

  lemma {:induction false} ActsWithin(acts: seq<Act>, st: State, d: int)
    requires ActsKeep(acts) && Depth(st) >= d
    ensures Within(Acts(acts, st), d)
    decreases acts, 0, 0
  {
    if acts == [] {
    } else {
      OneWithin(acts[0], st);
      if One(acts[0], st).returned { ActsWithin(acts[1..], One(acts[0], st).st, d); }
    }
  }

  lemma {:induction false} OneWithin(act: Act, st: State)
    requires ActKeeps(act)
    ensures Within(One(act, st), Depth(st))
    decreases act, 0, 0
  {
    match act
    case Change(after, keepsDepth) =>
    case Invoke(call) => ExecWithin(call, st);
  }

  /** While only Proc writes PROC_DEPTH, at most seven frames are ever active. */
  lemma AtMostSevenFrames(call: Call, st: State)
    requires CallKeeps(call) && Depth(st) >= 0
    ensures Exec(call, st).peak <= MAX_DEPTH
  {
    ExecWithin(call, st);
  }

  // ---- The code, on a channel that is changed in place ----

  class Channel {
    var vars: Vars
    var at: Place
    var proc: Place
    var autoloop: bool
    var softHangup: bool
    var asyncGoto: bool

    constructor (st: State)
      ensures Now() == st
    {
      vars, at, proc := st.vars, st.at, st.proc;
      autoloop, softHangup, asyncGoto := st.autoloop, st.softHangup, st.asyncGoto;
    }

    function Now(): State
      reads this
    {
      State(vars, at, proc, autoloop, softHangup, asyncGoto)
    }

    /** An application does something to the channel. */
    method Become(st: State)
      modifies this
      ensures Now() == st
    {
      vars, at, proc := st.vars, st.at, st.proc;
      autoloop, softHangup, asyncGoto := st.autoloop, st.softHangup, st.asyncGoto;
    }

    /** Gives ARG1.. new values and returns the old ones. */
    method SwapArgs(args: seq<Option<string>>) returns (before: seq<Option<string>>)
      modifies this`vars
      ensures vars == PutArgs(old(vars), args) && before == GetArgs(old(vars), |args|)
    {
      before := [];
      var x := 0;
      while x < |args|
        invariant x <= |args| && vars == PutArgs(old(vars), args[..x]) && before == GetArgs(old(vars), x)
      {
        PutArgsGet(old(vars), args[..x], Arg(x + 1));
        before := before + [Get(vars, Arg(x + 1))];
        assert args[..x + 1][..x] == args[..x];
        vars := Put(vars, Arg(x + 1), args[x]);
        x := x + 1;
      }
      assert args[..x] == args;
    }

    /** Saves the caller's frame and sets the channel up for the procedure. */
    method Enter(call: Call) returns (frame: Frame)
      modifies this
      ensures frame == FrameOf(call, old(Now())) && Now() == Entered(call, old(Now()))
    {
      ghost var st := Now();
      var outermost, oldAt := proc.context == "", at;
      if outermost { proc := at; }
      var saveExten, saveContext, savePriority, saveOffset :=
        Get(vars, EXTEN), Get(vars, CONTEXT), Get(vars, PRIORITY), Get(vars, OFFSET);
      vars := Put(vars, EXTEN, Some(oldAt.exten));
      vars := Put(vars, CONTEXT, Some(oldAt.context));
      vars := Put(vars, PRIORITY, Some(PrintInt(oldAt.priority)));
      vars := Put(vars, OFFSET, None);
      assert vars == WithCaller(st);
      at := Place(FullName(call), "s", 1);
      var oldArgs := SwapArgs(Given(call.args));
      CallerArgs(st, |call.args|);
      frame := Frame(oldAt, autoloop, outermost, saveExten, saveContext, savePriority, saveOffset, oldArgs);
      autoloop := true;
    }

    /** Puts back the caller's variables, all but PROC_OFFSET. */
    method RestoreVars(call: Call, frame: Frame, depth: int, ghost st: State)
      requires frame == FrameOf(call, st) && depth == Depth(st)
      modifies this`vars
      ensures vars == VarsBack(call, st, old(Now()))
    {
      vars := Put(vars, DEPTH, Some(PrintInt(depth)));
      var _ := SwapArgs(frame.args);
      vars := Put(vars, EXTEN, frame.exten);
      vars := Put(vars, CONTEXT, frame.context);
      vars := Put(vars, PRIORITY, frame.priority);
    }

    /** Puts the caller's frame back. */
    method Leave(call: Call, frame: Frame, depth: int, ghost st: State)
      requires frame == FrameOf(call, st) && depth == Depth(st)
      modifies this
      ensures Now() == Restored(call, st, old(Now()))
    {
      autoloop := frame.autoloop;
      RestoreVars(call, frame, depth, st);
      if frame.outermost { proc := NOWHERE; }
      if SameText(at.context, FullName(call)) {
        at := at.(priority := frame.at.priority, context := frame.at.context);
        if !asyncGoto {
          at := at.(exten := frame.at.exten);
          at := at.(priority := at.priority + Jump(call, vars));
        }
      }
      vars := Put(vars, OFFSET, frame.offset);
    }

    /** Raises the depth and notes whether the channel is hanging up. */
    method Mark(depth: int) returns (inHangup: bool)
      requires depth == Depth(Now())
      modifies this`vars
      ensures Now() == Marked(old(Now())) && inHangup == InHangup(Now())
    {
      vars := Put(vars, DEPTH, Some(PrintInt(depth + 1)));
      if at.exten == "h" { vars := Put(vars, HANGUP, Some("1")); }
      inHangup := InHangup(Now());
    }

    method ProcExec(call: Call) returns (res: int, returned: bool)
      modifies this
      ensures var o := Exec(call, old(Now())); Now() == o.st && res == o.res && returned == o.returned
      decreases call, 1, 0
    {
      res, returned := 0, true;
      var depth := Depth(Now());
      if depth >= MAX_DEPTH { return; }
      var inHangup := Mark(depth);
      if call.name == "" || !call.exists_ { return; }
      MarkedFrame(call, old(Now()));
      var frame := Enter(call);
      res, returned := RunBody(call, PrintInt(depth + 1));
      if !returned || inHangup { return 0, false; }
      Leave(call, frame, depth, old(Now()));
    }

    /** The steps of the procedure, until one fails, leaves the context or is hung up. */
    method RunBody(call: Call, depth: string) returns (res: int, returned: bool)
      modifies this
      ensures var o := Body(call, old(Now()), 0, depth); Now() == o.st && res == o.res && returned == o.returned
      decreases call, 0, |call.body| + 1
    {
      var i := 0;
      while i < |call.body|
        invariant i <= |call.body|
        invariant var (o, o') := (Body(call, old(Now()), 0, depth), Body(call, Now(), i, depth));
                  o.st == o'.st && o.res == o'.res && o.returned == o'.returned
      {
        vars := Put(vars, DEPTH, Some(depth));
        returned := RunActs(call.body[i].acts);
        if !returned { return 0, false; }
        res := call.body[i].res;
        if res != 0 { return if res == PROC_EXIT_RESULT then 0 else res, true; }
        if !SameText(at.context, FullName(call)) || softHangup { return 0, true; }
        at := at.(priority := at.priority + 1);
        i := i + 1;
      }
      return 0, true;
    }

    /** What one application does. */
    method RunActs(acts: seq<Act>) returns (returned: bool)
      modifies this
      ensures var o := Acts(acts, old(Now())); Now() == o.st && returned == o.returned
      decreases acts, 0, 1
    {
      if acts == [] { return true; }
      returned := RunAct(acts[0]);
      if returned { returned := RunActs(acts[1..]); }
    }

    method RunAct(act: Act) returns (returned: bool)
      modifies this
      ensures var o := One(act, old(Now())); Now() == o.st && returned == o.returned
      decreases act, 0, 0
    {
      match act
      case Change(after, keepsDepth) =>
        Become(Changed(Now(), after, keepsDepth));
        returned := true;
      case Invoke(call) =>
        var res;
        res, returned := ProcExec(call);
    }
  }
}

/** ADSIProg: what holds of the program after every line of every script. */
module AdsiSoundness {
  import opened Common
  import opened AdsiTables
  import opened AdsiCode
  import opened AdsiEntries
  import opened AdsiProgram

  // ---- The invariant ----

  /** Key i: blank beyond the table, being defined exactly when it is the open one, its code within its
      room and naming only entries there are. */
  ghost predicate KeySound(d: KeyDef, i: int, open: int, keys: nat, subs: nat) {
    && (i >= keys ==> d.NoKey?)
    && (d.KeyMaking? <==> i == open)
    && KeyFits(d)
    && (!d.NoKey? ==> AllRefsOk(d.code, keys, subs))
  }

  /** Subroutine i: the open one has its header, another one was closed, or announced, or not begun. */
  ghost predicate SubSound(d: SubDef, i: int, open: int, keys: nat, subs: nat) {
    && (i >= subs ==> d.NoSub?)
    && SubOk(d)
    && (if i == open then d.SubMaking? else d.SubMaking? ==> d == ANNOUNCED)
    && (!d.NoSub? ==> AllRefsOk(d.code, keys, subs))
  }

  function OpenKeyOf(front: Front): int {
    if front.mode == InKey then front.at else -1
  }

  function OpenSubOf(front: Front): int {
    if front.mode == InSub || front.mode == InIf then front.at else -1
  }

  ghost predicate KeysSound(keys: seq<KeyDef>, open: int, nk: nat, ns: nat) {
    |keys| == KEY_ROOM && forall i :: 0 <= i < |keys| ==> KeySound(keys[i], i, open, nk, ns)
  }

  ghost predicate SubsSound(subs: seq<SubDef>, open: int, nk: nat, ns: nat) {
    |subs| == SUB_ROOM && forall i :: 0 <= i < |subs| ==> SubSound(subs[i], i, open, nk, ns)
  }

  ghost predicate DisplaysSound(displays: seq<DisplayDef>, n: nat) {
    |displays| == DISPLAY_ROOM && forall i :: n <= i < |displays| ==> displays[i] == NoDisplay
  }

  /** The instructions after the one that opened the IF clause are the ones counted in it. */
  predicate ClauseCounts(d: SubDef)
    requires d.SubMaking?
  {
    d.clause.Some? && d.inside == |d.code| - 1 - d.clause.value
  }

  ghost predicate Sound(p: Program) {
    && Placed(p)
    && KeysSound(p.keys, OpenKeyOf(p.front), |p.front.names.keys|, |p.front.names.subs|)
    && SubsSound(p.subs, OpenSubOf(p.front), |p.front.names.keys|, |p.front.names.subs|)
    && DisplaysSound(p.displays, |p.front.names.displays|)
    && (p.front.mode == InKey ==> p.front.at < |p.front.names.keys|)
    && (p.front.mode == InSub || p.front.mode == InIf ==> p.front.at < |p.front.names.subs|)
    && (p.front.mode == InIf ==> ClauseCounts(p.subs[p.front.at]))
  }

  // ---- Tables only grow ----

  ghost predicate Extends(names: Names, names': Names) {
    && names.keys <= names'.keys && names.subs <= names'.subs && names.states <= names'.states
    && names.flags <= names'.flags && names.displays <= names'.displays
  }

  /** More names change nothing else. */
  lemma RenamedSound(p: Program, names: Names)
    requires Sound(p) && NamesOk(names) && Extends(p.front.names, names)
    ensures Sound(Renamed(p, names))
  {
  }

  // ---- Commands ----

  ghost predicate RefsFine(r: Refs) {
    && |r.names| <= KEY_ROOM && |r.ids| <= 6
    && (r.sound ==> forall k :: 0 <= k < |r.ids| ==> 2 <= r.ids[k] < 2 + |r.names|)
  }

  /** Every key number SHOWKEYS collects is that of an entry, and entries keep their places. */
  lemma {:induction false} CollectKeeps(words: seq<KeyWord>, r: Refs)
    requires RefsFine(r)
    ensures RefsFine(Collect(words, r)) && r.names <= Collect(words, r).names
    decreases |words|
  {
    if words == [] || |r.ids| == 6 {
    } else {
      match words[0]
      case Stray(byte) => CollectKeeps(words[1..], r.(ids := r.ids + [byte], sound := false));
      case Named(name) =>
        GrownMeaning(r.names, name, KEY_ROOM, true);
        match Entry(r.names, name, KEY_ROOM, true)
        case None =>
        case Some(i) =>
          CollectKeeps(words[1..], r.(names := Grown(r.names, name, KEY_ROOM, true), ids := r.ids + [i + 2]));
    }
  }

  ghost predicate EmitFine(names: Names, e: Emitted) {
    && NamesOk(e.names) && Extends(names, e.names)
    && (e.instr.Some? ==> RefsOk(e.instr.value, |e.names.keys|, |e.names.subs|))
  }

  lemma CallKeeps(names: Names, target: Option<string>, before: Bytes, marked: bool, after: Bytes)
    requires NamesOk(names)
    ensures EmitFine(names, Call(names, target, before, marked, after))
  {
  }

  /** Every command keeps the tables, and its instruction names only entries there are. */
  lemma EmitKeeps(names: Names, cmd: Cmd, inKey: bool)
    requires NamesOk(names)
    ensures EmitFine(names, Emit(names, cmd, inKey))
  {
    match cmd
    case ShowKeysCmd(words, unless) => CollectKeeps(words, Refs(names.keys, [], true, true));
    case OnEventCmd(event, states, target) => CallKeeps(names, target, [8, event], true, Zeros(|states|));
    case GotoCmd(target) => CallKeeps(names, target, [0x9d], false, []);
    case _ =>
  }

  // ---- Lines ----

  /** Changing the key being defined. */
  lemma KeySet(keys: seq<KeyDef>, open: int, nk: nat, ns: nat, i: nat, d: KeyDef, open': int)
    requires KeysSound(keys, open, nk, ns) && i < |keys| && KeySound(d, i, open', nk, ns)
    requires (open == -1 || open == i) && (open' == -1 || open' == i)
    ensures KeysSound(keys[i := d], open', nk, ns)
  {
  }

  lemma KeyGrownSound(d: KeyDef, i: int, open: int, nk: nat, ns: nat, instr: Instr)
    requires d.KeyMaking? && KeySound(d, i, open, nk, ns) && RefsOk(instr, nk, ns)
    ensures KeySound(KeyGrown(d, instr), i, open, nk, ns)
  {
    CodeSnoc(d.code, instr);
  }

  lemma KeyCommandSound(p: Program, cmd: Cmd)
    requires Sound(p) && p.front.mode == InKey
    ensures Sound(KeyCommand(p, cmd))
  {
    EmitKeeps(p.front.names, cmd, true);
    var (e, at) := (Emit(p.front.names, cmd, true), p.front.at);
    var (nk, ns) := (|e.names.keys|, |e.names.subs|);
    RenamedSound(p, e.names);
    if e.instr.Some? {
      assert KeySound(p.keys[at], at, at, nk, ns);
      KeyGrownSound(p.keys[at], at, at, nk, ns, e.instr.value);
      KeySet(p.keys, at, nk, ns, at, KeyGrown(p.keys[at], e.instr.value), at);
    }
  }

  /** An instruction more in the open subroutine. */
  lemma SubGrownSound(p: Program, instr: Instr, counted: bool)
    requires Sound(p) && (p.front.mode == InSub || p.front.mode == InIf) && counted == (p.front.mode == InIf)
    requires RefsOk(instr, |p.front.names.keys|, |p.front.names.subs|)
    ensures Sound(p.(subs := p.subs[p.front.at := Appended(p.subs[p.front.at], instr, counted)]))
  {
  }

  lemma SubCommandSound(p: Program, cmd: Cmd)
    requires Sound(p) && (p.front.mode == InSub || p.front.mode == InIf)
    ensures Sound(SubCommand(p, cmd))
  {
    EmitKeeps(p.front.names, cmd, false);
    var e := Emit(p.front.names, cmd, false);
    RenamedSound(p, e.names);
    if e.instr.Some? && SubHasRoom(p.subs[p.front.at], p.front.at, e.instr.value) {
      SubGrownSound(Renamed(p, e.names), e.instr.value, p.front.mode == InIf);
    }
  }

  lemma GotoSound(p: Program, target: Option<string>)
    requires Sound(p) && p.front.mode == InIf
    ensures Sound(GotoInIf(p, target))
  {
  }

  lemma KeyBegunSound(p: Program, line: Line)
    requires Sound(p) && p.front.mode == Normal && line.KeyLine?
    ensures Sound(KeyBegun(p, line))
  {
  }

  lemma SubBegunSound(p: Program, name: Option<string>, is_: bool)
    requires Sound(p) && p.front.mode == Normal
    ensures Sound(SubBegun(p, name, is_))
  {
  }

  lemma DeclaredSound(p: Program, line: Line)
    requires Sound(p) && p.front.mode == Normal
    ensures Sound(Declared(p, line))
  {
    var names := p.front.names;
    match line
    case KeyLine(_, _, _, _) => KeyBegunSound(p, line);
    case SubLine(name, is_) => SubBegunSound(p, name, is_);
    case StateLine(Some(name)) =>
      RenamedSound(p, names.(states := Grown(names.states, name, STATE_ROOM, true)));
    case FlagLine(Some(name)) =>
      RenamedSound(p, names.(flags := Grown(names.flags, name, FLAG_ROOM, true)));
    case DisplayLine(Some(name), _, _, _, _) =>
      RenamedSound(p, names.(displays := Grown(names.displays, name, DISPLAY_ROOM, true)));
    case _ =>
  }

  lemma EndedSound(p: Program)
    requires Sound(p)
    ensures p.front.mode == InKey ==> Sound(KeyEnded(p))
    ensures p.front.mode == InSub ==> Sound(SubEnded(p))
  {
  }

  lemma IfBegunSound(p: Program, event: nat)
    requires Sound(p) && p.front.mode == InSub
    ensures Sound(IfBegun(p, event))
  {
  }

  lemma IfEndedSound(p: Program)
    requires Sound(p) && p.front.mode == InIf
    ensures Sound(IfEnded(p))
  {
  }

  /** Every line keeps the invariant. */
  lemma StepSound(p: Program, line: Line)
    requires Sound(p)
    ensures Sound(Step(p, line))
  {
    EndedSound(p);
    match p.front.mode
    case Normal => DeclaredSound(p, line);
    case InKey => if line.Command? { KeyCommandSound(p, line.cmd); }
    case InSub =>
      if line.Command? { SubCommandSound(p, line.cmd); }
      if line.IfEventLine? { IfBegunSound(p, line.event); }
    case InIf =>
      if line.Command? {
        if line.cmd.GotoCmd? { GotoSound(p, line.cmd.target); } else { SubCommandSound(p, line.cmd); }
      }
      if line.EndIf? { IfEndedSound(p); }
  }

  lemma StartSound()
    ensures Sound(Start())
  {
  }

  // ---- Whole scripts ----

  /** The meaning of a script. */
  ghost function Run(p: Program, lines: seq<Line>): (q: Program)
    requires Sound(p)
    ensures Sound(q)
    decreases |lines|
  {
    if lines == [] then p else StepSound(p, lines[0]); Run(Step(p, lines[0]), lines[1..])
  }

  /** What a script means. */
  ghost function Meaning(lines: seq<Line>): (p: Program)
    ensures Sound(p)
  {
    StartSound();
    Run(Start(), lines)
  }

  lemma EmitExtends(names: Names, cmd: Cmd, inKey: bool)
    requires NamesOk(names)
    ensures Extends(names, Emit(names, cmd, inKey).names)
  {
    EmitKeeps(names, cmd, inKey);
  }

  lemma StepExtends(p: Program, line: Line)
    requires Placed(p)
    ensures Extends(p.front.names, Step(p, line).front.names)
  {
    if line.Command? {
      EmitExtends(p.front.names, line.cmd, true);
      EmitExtends(p.front.names, line.cmd, false);
    }
  }

  /** However long a script, an entry keeps its name and its place, and so its number. */
  lemma {:induction false} RunExtends(p: Program, lines: seq<Line>)
    requires Sound(p)
    ensures Extends(p.front.names, Run(p, lines).front.names)
    decreases |lines|
  {
    if lines == [] {
    } else {
      StepSound(p, lines[0]);
      StepExtends(p, lines[0]);
      RunExtends(Step(p, lines[0]), lines[1..]);
    }
  }

  /** A name that is in a table is found at the same place in every extension of the table. */
  lemma {:induction false} PlaceStable(names: seq<string>, names': seq<string>, name: string)
    requires names <= names' && Place(names, name) < |names|
    ensures Place(names', name) == Place(names, name)
  {
    assert names[0] == names'[0];
    if !SameText(names[0], name) { PlaceStable(names[1..], names'[1..], name); }
  }

  // ---- Names ----

  predicate Short(name: Option<string>) {
    name.Some? ==> |name.value| <= NAME_ROOM
  }

  predicate ShortWord(word: KeyWord) {
    word.Named? ==> |word.name| <= NAME_ROOM
  }

  predicate ShortWords(words: seq<KeyWord>) {
    forall k :: 0 <= k < |words| ==> ShortWord(words[k])
  }

  /** The names a line can enter in a table are at most 39 characters. */
  predicate ShortLine(line: Line) {
    match line
    case KeyLine(name, _, _, _) => Short(name)
    case SubLine(name, _) => Short(name)
    case StateLine(name) => Short(name)
    case FlagLine(name) => Short(name)
    case DisplayLine(name, _, _, _, _) => Short(name)
    case Command(ShowKeysCmd(words, _)) => ShortWords(words)
    case Command(OnEventCmd(_, _, target)) => Short(target)
    case Command(GotoCmd(target)) => Short(target)
    case _ => true
  }

  ghost predicate NamesDistinct(names: Names) {
    && Distinct(names.keys) && Distinct(names.subs) && Distinct(names.states)
    && Distinct(names.flags) && Distinct(names.displays)
  }

  lemma {:induction false} CollectDistinct(words: seq<KeyWord>, r: Refs)
    requires ShortWords(words) && Distinct(r.names) && |r.ids| <= 6
    ensures Distinct(Collect(words, r).names)
    decreases |words|
  {
    if words == [] || |r.ids| == 6 {
    } else {
      assert ShortWord(words[0]);
      assert forall k :: 0 <= k < |words| - 1 ==> words[1..][k] == words[k + 1];
      match words[0]
      case Stray(byte) => CollectDistinct(words[1..], r.(ids := r.ids + [byte], sound := false));
      case Named(name) =>
        GrownDistinctIff(r.names, name, KEY_ROOM, true);
        match Entry(r.names, name, KEY_ROOM, true)
        case None =>
        case Some(i) =>
          CollectDistinct(words[1..], r.(names := Grown(r.names, name, KEY_ROOM, true), ids := r.ids + [i + 2]));
    }
  }

  lemma CallDistinct(names: Names, target: Option<string>, before: Bytes, marked: bool, after: Bytes)
    requires NamesDistinct(names) && Short(target)
    ensures NamesDistinct(Call(names, target, before, marked, after).names)
  {
    if target.Some? { GrownDistinctIff(names.subs, target.value, SUB_ROOM, true); }
  }

  lemma EmitDistinct(names: Names, cmd: Cmd, inKey: bool)
    requires NamesDistinct(names) && ShortLine(Command(cmd))
    ensures NamesDistinct(Emit(names, cmd, inKey).names)
  {
    match cmd
    case ShowKeysCmd(words, _) => CollectDistinct(words, Refs(names.keys, [], true, true));
    case OnEventCmd(event, states, target) => CallDistinct(names, target, [8, event], true, Zeros(|states|));
    case GotoCmd(target) => CallDistinct(names, target, [0x9d], false, []);
    case _ =>
  }

  lemma DeclaredDistinct(p: Program, line: Line)
    requires Placed(p) && NamesDistinct(p.front.names) && ShortLine(line)
    ensures NamesDistinct(Declared(p, line).front.names)
  {
    var names := p.front.names;
    match line
    case KeyLine(Some(name), _, _, _) => GrownDistinctIff(names.keys, name, KEY_ROOM, true);
    case SubLine(Some(name), _) => GrownDistinctIff(names.subs, name, SUB_ROOM, true);
    case StateLine(Some(name)) => GrownDistinctIff(names.states, name, STATE_ROOM, true);
    case FlagLine(Some(name)) => GrownDistinctIff(names.flags, name, FLAG_ROOM, true);
    case DisplayLine(Some(name), _, _, _, _) => GrownDistinctIff(names.displays, name, DISPLAY_ROOM, true);
    case _ =>
  }

  lemma StepDistinct(p: Program, line: Line)
    requires Placed(p) && NamesDistinct(p.front.names) && ShortLine(line)
    ensures NamesDistinct(Step(p, line).front.names)
  {
    if p.front.mode == Normal {
      DeclaredDistinct(p, line);
    } else if line.Command? {
      EmitDistinct(p.front.names, line.cmd, p.front.mode == InKey);
      if line.cmd.GotoCmd? { CallDistinct(p.front.names, line.cmd.target, [], false, []); }
    }
  }

  /** A script whose names fit enters no name twice in a table. */
  lemma {:induction false} RunDistinct(p: Program, lines: seq<Line>)
    requires Sound(p) && NamesDistinct(p.front.names)
    requires forall k :: 0 <= k < |lines| ==> ShortLine(lines[k])
    ensures NamesDistinct(Run(p, lines).front.names)
    decreases |lines|
  {
    if lines == [] {
    } else {
      StepSound(p, lines[0]);
      StepDistinct(p, lines[0]);
      RunDistinct(Step(p, lines[0]), lines[1..]);
    }
  }

  // ---- Scripts that compile ----

  predicate KeyDefined(p: Program, i: int) {
    0 <= i < |p.keys| && p.keys[i].KeyMade?
  }

  predicate SubDefined(p: Program, i: int) {
    0 <= i < |p.subs| && (p.subs[i].SubMade? || (p.subs[i].SubMaking? && p.subs[i].defined))
  }

  /** The script ended neither in a key nor in a subroutine, and all it refers to is defined. */
  ghost predicate Accepted(p: Program) {
    && p.front.mode != InKey && p.front.mode != InSub
    && (forall i :: 0 <= i < |p.front.names.keys| ==> KeyDefined(p, i))
    && (forall i :: 0 <= i < |p.front.names.subs| ==> SubDefined(p, i))
  }

  /** Every entry an instruction names is defined. */
  ghost predicate Resolved(p: Program, i: Instr) {
    match i
    case ShowKeys(_, _, ids) => forall k :: 0 <= k < |ids| ==> KeyDefined(p, ids[k] - 2)
    case SubRef(_, sub, _, _) => SubDefined(p, sub)
    case _ => true
  }

  lemma RefsResolved(p: Program, code: seq<Instr>)
    requires Accepted(p) && AllRefsOk(code, |p.front.names.keys|, |p.front.names.subs|)
    ensures forall k :: 0 <= k < |code| ==> Resolved(p, code[k])
  {
  }

  /** In a script that compiles, every key or subroutine any instruction names is defined. */
  lemma AcceptedResolved(p: Program, i: nat, k: nat)
    requires Sound(p) && Accepted(p)
    ensures i < |p.front.names.keys| ==> !p.keys[i].NoKey? && (k < |p.keys[i].code| ==> Resolved(p, p.keys[i].code[k]))
    ensures i < |p.front.names.subs| ==> !p.subs[i].NoSub? && (k < |p.subs[i].code| ==> Resolved(p, p.subs[i].code[k]))
  {
    var (nk, ns) := (|p.front.names.keys|, |p.front.names.subs|);
    if i < nk {
      assert KeyDefined(p, i) && KeySound(p.keys[i], i, OpenKeyOf(p.front), nk, ns);
      RefsResolved(p, p.keys[i].code);
    }
    if i < ns {
      assert SubDefined(p, i) && SubSound(p.subs[i], i, OpenSubOf(p.front), nk, ns);
      RefsResolved(p, p.subs[i].code);
    }
  }

  /** A script that compiles has closed all its subroutines exactly when it did not end in an IF clause. */
  lemma AllClosedIff(p: Program)
    requires Sound(p) && Accepted(p)
    ensures (forall i :: 0 <= i < |p.front.names.subs| ==> p.subs[i].SubMade?) <==> p.front.mode == Normal
  {
    if p.front.mode == Normal {
      forall i | 0 <= i < |p.front.names.subs| ensures p.subs[i].SubMade? {
        assert SubDefined(p, i) && SubSound(p.subs[i], i, -1, |p.front.names.keys|, |p.front.names.subs|);
      }
    } else {
      assert p.subs[p.front.at].SubMaking?;
    }
  }

  lemma RunSteps(p: Program, line: Line, rest: seq<Line>)
    requires Sound(p) && Sound(Step(p, line))
    ensures Run(p, [line] + rest) == Run(Step(p, line), rest)
  {
  }

  /** In main, with no key or other subroutine referred to. */
  predicate InMainAlone(p: Program) {
    p.front.mode == InSub && p.front.at == 0 && |p.front.names.keys| == 0 && |p.front.names.subs| == 1
  }

  lemma BeginsMain(rest: seq<Line>) returns (p: Program)
    ensures Sound(p) && InMainAlone(p) && p.subs[0] == ANNOUNCED
    ensures Meaning([SubLine(Some("main"), true)] + rest) == Run(p, rest)
  {
    StartSound();
    assert Place(["main"], "main") == 0;
    p := Step(Start(), SubLine(Some("main"), true));
    StepSound(Start(), SubLine(Some("main"), true));
    RunSteps(Start(), SubLine(Some("main"), true), rest);
  }

  lemma ClosesClause(p: Program, event: nat, rest: seq<Line>) returns (q: Program)
    requires Sound(p) && InMainAlone(p) && event >= 1
    ensures Sound(q) && InMainAlone(q) && q.subs[0].defined
    ensures Run(p, [IfEventLine(event, true)] + ([EndIf] + rest)) == Run(q, rest)
  {
    var mid := Step(p, IfEventLine(event, true));
    StepSound(p, IfEventLine(event, true));
    q := Step(mid, EndIf);
    StepSound(mid, EndIf);
    RunSteps(p, IfEventLine(event, true), [EndIf] + rest);
    RunSteps(mid, EndIf, rest);
  }

  lemma OpensClause(p: Program, event: nat)
    requires Sound(p) && InMainAlone(p) && p.subs[0].defined && event >= 1
    ensures var q := Run(p, [IfEventLine(event, true)]);
            Accepted(q) && q.front.mode == InIf && q.subs[0].SubMaking?
  {
    StepSound(p, IfEventLine(event, true));
    RunSteps(p, IfEventLine(event, true), []);
    assert [IfEventLine(event, true)] + [] == [IfEventLine(event, true)];
  }

  /** The exception is real: when a first clause has been closed the subroutine passes for defined, and the
      script compiles although it ends inside a second one. */
  lemma EndsInClause(event: nat)
    requires event >= 1
    ensures var p := Meaning([SubLine(Some("main"), true), IfEventLine(event, true), EndIf, IfEventLine(event, true)]);
            Accepted(p) && p.front.mode == InIf && p.subs[0].SubMaking?
  {
    var (main, clause) := (SubLine(Some("main"), true), IfEventLine(event, true));
    var p := BeginsMain([clause, EndIf, clause]);
    assert [main] + [clause, EndIf, clause] == [main, clause, EndIf, clause];
    var q := ClosesClause(p, event, [clause]);
    assert [clause] + ([EndIf] + [clause]) == [clause, EndIf, clause];
    OpensClause(q, event);
  }

  // ---- Long scripts ----

  const CLEAR := Command(Fixed(Some([0x97]), Some([5])))

  /** k lines of CLEAR and the end of the subroutine. */
  function Clears(k: nat): seq<Line> {
    if k == 0 then [EndSub] else [CLEAR] + Clears(k - 1)
  }

  /** The bytes of main's code so far. */
  function MainBytes(p: Program): nat
    requires |p.subs| > 0 && !p.subs[0].NoSub?
  {
    |SubCode(p.subs[0].code, |p.subs[0].code|)|
  }

  /** A CLEAR in main is two bytes more, while there is room. */
  lemma ClearStep(p: Program)
    requires Sound(p) && InMainAlone(p) && 3 + MainBytes(p) + 2 <= MAX_MAIN_LEN
    ensures Sound(Step(p, CLEAR)) && InMainAlone(Step(p, CLEAR)) && MainBytes(Step(p, CLEAR)) == MainBytes(p) + 2
  {
    StepSound(p, CLEAR);
    CodeSnoc(p.subs[0].code, Plain([5]));
  }

  /** The script has compiled, and main has so many bytes of code. */
  ghost predicate MainOnly(p: Program, bytes: nat) {
    && Accepted(p) && p.front.mode == Normal && |p.front.names.keys| == 0 && |p.front.names.subs| == 1
    && |p.subs| > 0 && p.subs[0].SubMade? && MainBytes(p) == bytes
  }

  lemma MainEnds(p: Program)
    requires Sound(p) && InMainAlone(p)
    ensures MainOnly(Run(p, [EndSub]), MainBytes(p))
  {
    StepSound(p, EndSub);
    assert [EndSub] + [] == [EndSub];
    RunSteps(p, EndSub, []);
  }

  /** All of them are taken that there is room for. */
  lemma {:induction false} ClearsRun(p: Program, k: nat)
    requires Sound(p) && InMainAlone(p) && 3 + MainBytes(p) + 2 * k <= MAX_MAIN_LEN
    ensures MainOnly(Run(p, Clears(k)), MainBytes(p) + 2 * k)
    decreases k
  {
    if k == 0 {
      MainEnds(p);
    } else {
      ClearStep(p);
      RunSteps(p, CLEAR, Clears(k - 1));
      ClearsRun(Step(p, CLEAR), k - 1);
    }
  }
}

/** ADSIProg: every byte of a compiled message is a byte.

    The compiler computes with numbers and stores them in chars.  When the texts and fixed commands of a
    script are bytes and its events have numbers below 256, no number it stores is cut: what the model
    holds is what the buffers hold. */
module AdsiBytes {
  import opened Common
  import opened AdsiTables
  import opened AdsiCode
  import opened AdsiEntries
  import opened AdsiProgram
  import opened AdsiSoundness
  import opened AdsiCompiler

  predicate IsByte(b: Byte) {
    0 <= b < 256
  }

  predicate AreBytes(s: Bytes) {
    forall i :: 0 <= i < |s| ==> IsByte(s[i])
  }

  predicate TextOk(text: Option<Bytes>) {
    text.Some? ==> AreBytes(text.value)
  }

  predicate WordOk(word: KeyWord) {
    word.Stray? ==> IsByte(word.byte)
  }

  /** What a script itself must bring: bytes, and events with byte-sized numbers. */
  predicate CmdOk(cmd: Cmd) {
    match cmd
    case Fixed(key, sub) => TextOk(key) && TextOk(sub)
    case ShowKeysCmd(words, _) => forall k :: 0 <= k < |words| ==> WordOk(words[k])
    case OnEventCmd(event, _, _) => event < 256
    case _ => true
  }

  predicate LineOk(line: Line) {
    match line
    case KeyLine(_, _, short, long) => TextOk(short) && (long.Some? ==> TextOk(long.value))
    case DisplayLine(_, _, one, two, _) => TextOk(one) && TextOk(two)
    case Command(cmd) => CmdOk(cmd)
    case IfEventLine(event, _) => event < 256
    case _ => true
  }

  // ---- Instructions ----

  predicate InstrOk(i: Instr) {
    AreBytes(Words(i))
  }

  predicate CodeOk(code: seq<Instr>) {
    forall k :: 0 <= k < |code| ==> InstrOk(code[k])
  }

  lemma {:induction false} CollectBytes(words: seq<KeyWord>, r: Refs)
    requires RefsFine(r) && AreBytes(r.ids) && forall k :: 0 <= k < |words| ==> WordOk(words[k])
    ensures AreBytes(Collect(words, r).ids)
    decreases |words|
  {
    if words == [] || |r.ids| == 6 {
    } else {
      assert WordOk(words[0]);
      assert forall k :: 0 <= k < |words| - 1 ==> words[1..][k] == words[k + 1];
      match words[0]
      case Stray(byte) => CollectBytes(words[1..], r.(ids := r.ids + [byte], sound := false));
      case Named(name) =>
        GrownMeaning(r.names, name, KEY_ROOM, true);
        match Entry(r.names, name, KEY_ROOM, true)
        case None =>
        case Some(i) =>
          CollectBytes(words[1..], r.(names := Grown(r.names, name, KEY_ROOM, true), ids := r.ids + [i + 2]));
    }
  }

  lemma FlagIsSmall(flags: seq<string>, name: Option<string>)
    requires |flags| <= FLAG_ROOM
    ensures FlagNumber(flags, name) <= FLAG_ROOM
  {
  }

  lemma ShowKeysBytes(names: Names, words: seq<KeyWord>, unless: Option<string>, op: Byte)
    requires NamesOk(names) && IsByte(op) && CmdOk(ShowKeysCmd(words, unless))
    ensures var r := Collect(words, Refs(names.keys, [], true, true));
            InstrOk(ShowKeysInstr(r, FlagNumber(names.flags, unless), op))
  {
    var start := Refs(names.keys, [], true, true);
    CollectKeeps(words, start);
    CollectBytes(words, start);
    FlagIsSmall(names.flags, unless);
  }

  lemma CallBytes(names: Names, target: Option<string>, before: Bytes, marked: bool, after: Bytes)
    requires NamesOk(names) && AreBytes(before) && AreBytes(after)
    ensures InstrOk(Call(names, target, before, marked, after).instr.value)
  {
  }

  /** Every command's instruction is bytes. */
  lemma EmitBytes(names: Names, cmd: Cmd, inKey: bool)
    requires NamesOk(names) && CmdOk(cmd)
    ensures Emit(names, cmd, inKey).instr.Some? ==> InstrOk(Emit(names, cmd, inKey).instr.value)
  {
    match cmd
    case ShowKeysCmd(words, unless) => ShowKeysBytes(names, words, unless, if inKey then 0x99 else 2);
    case FlagCmd(name, on) => FlagIsSmall(names.flags, name);
    case OnEventCmd(event, states, target) => CallBytes(names, target, [8, event], true, Zeros(|states|));
    case GotoCmd(target) => CallBytes(names, target, [0x9d], false, []);
    case _ =>
  }

  // ---- Programs ----

  predicate KeyBytes(d: KeyDef) {
    d.NoKey? || (AreBytes(d.long) && AreBytes(d.short) && CodeOk(d.code))
  }

  predicate SubBytes(d: SubDef) {
    d.NoSub? || CodeOk(d.code)
  }

  predicate DisplayBytes(d: DisplayDef) {
    d.NoDisplay? || (AreBytes(d.one) && TextOk(d.two))
  }

  predicate ProgramBytes(p: Program) {
    && (forall i :: 0 <= i < |p.keys| ==> KeyBytes(p.keys[i]))
    && (forall i :: 0 <= i < |p.subs| ==> SubBytes(p.subs[i]))
    && (forall i :: 0 <= i < |p.displays| ==> DisplayBytes(p.displays[i]))
  }

  lemma KeyCommandBytes(p: Program, cmd: Cmd)
    requires Sound(p) && p.front.mode == InKey && ProgramBytes(p) && CmdOk(cmd)
    ensures ProgramBytes(KeyCommand(p, cmd))
  {
    EmitBytes(p.front.names, cmd, true);
    var (e, d) := (Emit(p.front.names, cmd, true), p.keys[p.front.at]);
    if e.instr.Some? { assert KeyBytes(KeyGrown(d, e.instr.value)); }
  }

  lemma SubCommandBytes(p: Program, cmd: Cmd)
    requires Sound(p) && (p.front.mode == InSub || p.front.mode == InIf) && ProgramBytes(p) && CmdOk(cmd)
    ensures ProgramBytes(SubCommand(p, cmd))
  {
    EmitBytes(p.front.names, cmd, false);
    var (e, d) := (Emit(p.front.names, cmd, false), p.subs[p.front.at]);
    if e.instr.Some? { assert SubBytes(Appended(d, e.instr.value, p.front.mode == InIf)); }
  }

  /** Lines in an IF clause that are not commands of a subroutine. */
  lemma ClauseBytes(p: Program, target: Option<string>)
    requires Sound(p) && p.front.mode == InIf && ProgramBytes(p)
    ensures ProgramBytes(GotoInIf(p, target)) && ProgramBytes(IfEnded(p))
  {
    var d := p.subs[p.front.at];
    var k := d.clause.value;
    assert InstrOk(d.code[k]) && Words(d.code[k])[1] == d.code[k].event;
    assert InstrOk(IfEvent(d.code[k].event, Low(d.inside)));
    assert SubBytes(ClauseClosed(d));
    if target.Some? {
      match Entry(p.front.names.subs, target.value, SUB_ROOM, true)
      case None =>
      case Some(i) =>
        assert InstrOk(Branch(d, i));
        assert SubBytes(Appended(d, Branch(d, i), true));
    }
  }

  lemma IfBegunBytes(p: Program, event: nat)
    requires Sound(p) && p.front.mode == InSub && ProgramBytes(p) && event < 256
    ensures ProgramBytes(IfBegun(p, event))
  {
  }

  lemma DeclaredBytes(p: Program, line: Line)
    requires Sound(p) && p.front.mode == Normal && ProgramBytes(p) && LineOk(line)
    ensures ProgramBytes(Declared(p, line))
  {
  }

  lemma StepBytes(p: Program, line: Line)
    requires Sound(p) && ProgramBytes(p) && LineOk(line)
    ensures ProgramBytes(Step(p, line))
  {
    match p.front.mode
    case Normal => DeclaredBytes(p, line);
    case InKey => if line.Command? { KeyCommandBytes(p, line.cmd); }
    case InSub =>
      if line.Command? { SubCommandBytes(p, line.cmd); }
      if line.IfEventLine? { IfBegunBytes(p, line.event); }
    case InIf =>
      ClauseBytes(p, if line.Command? && line.cmd.GotoCmd? then line.cmd.target else None);
      if line.Command? && !line.cmd.GotoCmd? { SubCommandBytes(p, line.cmd); }
  }

  lemma {:induction false} RunBytes(p: Program, lines: seq<Line>)
    requires Sound(p) && ProgramBytes(p) && forall k :: 0 <= k < |lines| ==> LineOk(lines[k])
    ensures ProgramBytes(Run(p, lines))
    decreases |lines|
  {
    if lines == [] {
    } else {
      StepSound(p, lines[0]);
      StepBytes(p, lines[0]);
      RunBytes(Step(p, lines[0]), lines[1..]);
    }
  }

  // ---- Messages ----

  lemma {:induction false} JoinBytes(parts: seq<Bytes>, n: nat)
    requires n <= |parts| && forall i :: 0 <= i < n ==> AreBytes(parts[i])
    ensures AreBytes(Join(parts, n))
  {
    if n == 0 {
    } else {
      JoinBytes(parts, n - 1);
    }
  }

  lemma CodeBytes(code: seq<Instr>)
    requires CodeOk(code)
    ensures AreBytes(KeyCode(code)) && AreBytes(SubCode(code, |code|))
  {
    forall i | 0 <= i < |code| ensures AreBytes(AllWords(code)[i]) && AreBytes(Blocks(code)[i]) {
      assert InstrOk(code[i]);
    }
    JoinBytes(AllWords(code), |code|);
    JoinBytes(Blocks(code), |code|);
  }

  lemma Concat(a: Bytes, b: Bytes)
    requires AreBytes(a) && AreBytes(b)
    ensures AreBytes(a + b)
  {
  }

  lemma KeyHeadBytes(id: nat, length: Byte, long: Bytes, short: Bytes)
    requires id < 256 && IsByte(length) && AreBytes(long) && AreBytes(short)
    ensures AreBytes(KeyHead(id, length, long, short))
  {
    Concat([128, length, id], Cut(long, 18));
    Concat([128, length, id] + Cut(long, 18), [255]);
    Concat([128, length, id] + Cut(long, 18) + [255], Cut(short, 7));
    Concat([128, length, id] + Cut(long, 18) + [255] + Cut(short, 7), [255]);
  }

  lemma KeyMessageBytes(d: KeyDef, id: nat)
    requires KeyBytes(d) && KeyFits(d) && id < 256
    ensures AreBytes(KeyImage(d, id).retstr)
  {
    if d.NoKey? {
    } else {
      CodeBytes(d.code);
      var length := KeyHeadLen(d.long, d.short) + |KeyCode(d.code)| - 2;
      KeyHeadBytes(id, 0, d.long, d.short);
      Concat(KeyHead(id, 0, d.long, d.short), KeyCode(d.code));
      KeyHeadBytes(id, length, d.long, d.short);
      Concat(KeyHead(id, length, d.long, d.short), KeyCode(d.code));
    }
  }

  lemma SubMessageBytes(d: SubDef, id: nat, last: bool)
    requires SubBytes(d) && id < 256
    ensures AreBytes(SubMessage(SubImage(d, id).data, last))
  {
    if d.NoSub? {
    } else {
      CodeBytes(d.code);
      var length := Low(HeadLen(id) + |SubCode(d.code, |d.code|)| - 2);
      assert AreBytes(SubHead(id, length, Low(|d.code|))) && AreBytes(SubHead(id, 0, 0));
    }
  }

  lemma DisplayMessageBytes(d: DisplayDef, id: nat)
    requires DisplayBytes(d) && id < 64
    ensures AreBytes(DisplayImage(d, id))
  {
  }

  predicate AllBytes(msgs: seq<Bytes>) {
    forall i :: 0 <= i < |msgs| ==> AreBytes(msgs[i])
  }

  lemma KeysAreBytes(p: Program)
    requires Sound(p) && ProgramBytes(p)
    ensures AllBytes(MessagesOf(p).keys)
  {
    var keys := MessagesOf(p).keys;
    forall i | 0 <= i < |keys| ensures AreBytes(keys[i]) {
      assert KeySound(p.keys[i], i, OpenKeyOf(p.front), |p.front.names.keys|, |p.front.names.subs|);
      KeyMessageBytes(p.keys[i], i + 2);
    }
  }

  lemma OthersAreBytes(p: Program)
    requires Placed(p) && ProgramBytes(p)
    ensures AllBytes(MessagesOf(p).displays) && AllBytes(MessagesOf(p).subs)
  {
    var m := MessagesOf(p);
    forall i | 0 <= i < |m.displays| ensures AreBytes(m.displays[i]) { DisplayMessageBytes(p.displays[i], i + 1); }
    forall i | 0 <= i < |m.subs| ensures AreBytes(m.subs[i]) { SubMessageBytes(p.subs[i], i, i == |m.subs| - 1); }
  }

  /** Every script made of bytes means messages made of bytes. */
  lemma MessagesAreBytes(lines: seq<Line>)
    requires forall k :: 0 <= k < |lines| ==> LineOk(lines[k])
    ensures var m := MessagesOf(Meaning(lines)); AllBytes(m.keys) && AllBytes(m.displays) && AllBytes(m.subs)
  {
    StartSound();
    RunBytes(Start(), lines);
    KeysAreBytes(Meaning(lines));
    OthersAreBytes(Meaning(lines));
  }
}

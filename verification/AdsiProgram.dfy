/** ADSIProg: what a script means, line by line.

    A script declares states and flags and defines displays, soft keys and subroutines.  Its meaning is a
    program: five tables of names, and for each key and subroutine the instructions it is made of.  Lines
    come with their words already told apart; a word that is missing or of the wrong kind is None. */
module AdsiProgram {
  import opened Common
  import opened AdsiTables
  import opened AdsiCode
  import opened AdsiEntries

  const KEY_ROOM := 62
  const SUB_ROOM := 128
  const STATE_ROOM := 254
  const FLAG_ROOM := 7
  const DISPLAY_ROOM := 62

  // ---- Scripts ----

  /** A word in the place of a key name: a name, or a word of the wrong kind, whose slot keeps a stray byte. */
  datatype KeyWord = Named(name: string) | Stray(byte: Byte)

  /** Where SHOWDISPLAY shows a display. */
  datatype Spot = Spot(update: bool, line: nat, flag: nat)

  /** A command of a key or a subroutine.  Fixed is every command whose bytes do not depend on the tables,
      with its bytes in a key and in a subroutine, None where it is not a command. */
  datatype Cmd =
    | Fixed(inKey: Option<Bytes>, inSub: Option<Bytes>)
    | ShowKeysCmd(words: seq<KeyWord>, unless: Option<string>)
    | ShowDisplayCmd(name: Option<string>, spot: Option<Spot>)
    | FlagCmd(name: Option<string>, on: bool)
    | OnEventCmd(event: nat, states: seq<Option<string>>, target: Option<string>)
    | GotoCmd(target: Option<string>)

  datatype Line =
    | KeyLine(name: Option<string>, is_: bool, short: Option<Bytes>, long: Option<Option<Bytes>>)
    | SubLine(name: Option<string>, is_: bool)
    | StateLine(name: Option<string>)
    | FlagLine(name: Option<string>)
    | DisplayLine(name: Option<string>, is_: bool, one: Option<Bytes>, two: Option<Bytes>, q: Qualifiers)
    | Command(cmd: Cmd)
    | IfEventLine(event: nat, then_: bool)
    | EndKey | EndSub | EndIf
    | OtherLine

  // ---- Programs ----

  datatype Mode = Normal | InKey | InSub | InIf

  datatype Names = Names(
    keys: seq<string>, subs: seq<string>, states: seq<string>, flags: seq<string>, displays: seq<string>)

  /** The parse state, the key or subroutine being defined, and the tables. */
  datatype Front = Front(mode: Mode, at: nat, names: Names)

  /** Entry i of `keys` is key number i + 2, of `subs` subroutine number i, of `displays` display i + 1. */
  datatype Program = Program(front: Front, keys: seq<KeyDef>, subs: seq<SubDef>, displays: seq<DisplayDef>)

  function Renamed(p: Program, names: Names): Program {
    p.(front := p.front.(names := names))
  }

  predicate NamesOk(names: Names) {
    && |names.keys| <= KEY_ROOM && 0 < |names.subs| <= SUB_ROOM && |names.states| <= STATE_ROOM
    && |names.flags| <= FLAG_ROOM && |names.displays| <= DISPLAY_ROOM
    && names.subs[0] == "main"
  }

  /** The tables are within bounds and the entry being defined is there to be defined. */
  predicate Placed(p: Program) {
    && NamesOk(p.front.names)
    && |p.keys| == KEY_ROOM && |p.subs| == SUB_ROOM && |p.displays| == DISPLAY_ROOM
    && (p.front.mode == InKey ==> p.front.at < KEY_ROOM && p.keys[p.front.at].KeyMaking?)
    && (p.front.mode == InSub || p.front.mode == InIf ==>
        p.front.at < SUB_ROOM && p.subs[p.front.at].SubMaking? && SubOk(p.subs[p.front.at]))
    && (p.front.mode == InIf ==> p.subs[p.front.at].clause.Some?)
  }

  // ---- Commands ----

  /** Key numbers collected for SHOWKEYS; `sound` while no slot is stray, `complete` until a word is dropped. */
  datatype Refs = Refs(names: seq<string>, ids: Bytes, sound: bool, complete: bool)

  /** Up to six key names, each entered in the table when it is new; a full table ends the list. */
  function Collect(words: seq<KeyWord>, r: Refs): Refs {
    if words == [] then r
    else if |r.ids| == 6 then r.(complete := false)
    else match words[0]
    case Stray(byte) => Collect(words[1..], r.(ids := r.ids + [byte], sound := false))
    case Named(name) =>
      match Entry(r.names, name, KEY_ROOM, true)
      case None => r.(complete := false)
      case Some(i) => Collect(words[1..], r.(names := Grown(r.names, name, KEY_ROOM, true), ids := r.ids + [i + 2]))
  }

  /** The number of a declared flag, 0 without one. */
  function FlagNumber(flags: seq<string>, name: Option<string>): nat {
    if name.None? then 0
    else match Entry(flags, name.value, FLAG_ROOM, false)
    case None => 0
    case Some(i) => i + 1
  }

  function ShowKeysInstr(r: Refs, flag: nat, op: Byte): Instr {
    var head := 8 * (if r.complete then flag else 0) + |r.ids|;
    if r.sound then ShowKeys(op, head, r.ids) else Plain([op, head] + r.ids)
  }

  function ShowDisplayInstr(displays: seq<string>, name: Option<string>, spot: Option<Spot>, op: Byte): Instr {
    if name.None? || spot.None? then Plain([])
    else match Entry(displays, name.value, DISPLAY_ROOM, false)
    case None => Plain([])
    case Some(i) =>
      Plain([op, 64 * (if spot.value.update then 3 else 1) + i + 1, 8 * (spot.value.line % 32) + spot.value.flag % 8])
  }

  function FlagInstr(flags: seq<string>, name: Option<string>, on: bool, op: Byte): Instr {
    var flag := FlagNumber(flags, name);
    if flag == 0 then Plain([]) else Plain([op, 16 * flag + if on then 1 else 0])
  }

  /** Whether the words after IN and OR are at most eight declared states. */
  predicate StatesOk(table: seq<string>, states: seq<Option<string>>) {
    && |states| <= 8
    && forall k :: 0 <= k < |states| ==> states[k].Some? && Place(table, states[k].value) < |table|
  }

  function Zeros(n: nat): Bytes {
    seq(n, _ => 0)
  }

  datatype Emitted = Emitted(names: Names, instr: Option<Instr>)

  /** A reference to a subroutine, entered in the table when it is new. */
  function Call(names: Names, target: Option<string>, before: Bytes, marked: bool, after: Bytes): Emitted {
    if target.None? then Emitted(names, Some(Plain([])))
    else match Entry(names.subs, target.value, SUB_ROOM, true)
    case None => Emitted(names, Some(Plain([])))
    case Some(i) =>
      Emitted(names.(subs := Grown(names.subs, target.value, SUB_ROOM, true)), Some(SubRef(before, i, marked, after)))
  }

  /** What a command adds to the tables and the instruction it stands for; None when it is not a command of
      a key, or of a subroutine.  A command that went wrong is an instruction without bytes. */
  function Emit(names: Names, cmd: Cmd, inKey: bool): Emitted {
    match cmd
    case Fixed(key, sub) =>
      var bytes := if inKey then key else sub;
      Emitted(names, if bytes.Some? then Some(Plain(bytes.value)) else None)
    case ShowKeysCmd(words, unless) =>
      var r := Collect(words, Refs(names.keys, [], true, true));
      var instr := ShowKeysInstr(r, FlagNumber(names.flags, unless), if inKey then 0x99 else 2);
      Emitted(names.(keys := r.names), Some(instr))
    case ShowDisplayCmd(name, spot) =>
      Emitted(names, Some(ShowDisplayInstr(names.displays, name, spot, if inKey then 0x98 else 3)))
    case FlagCmd(name, on) => Emitted(names, Some(FlagInstr(names.flags, name, on, if inKey then 0x9c else 10)))
    case OnEventCmd(event, states, target) =>
      if inKey then Emitted(names, None)
      else if event < 1 || !StatesOk(names.states, states) then Emitted(names, Some(Plain([])))
      else Call(names, target, [8, event], true, Zeros(|states|))
    case GotoCmd(target) => if inKey then Call(names, target, [0x9d], false, []) else Emitted(names, None)
  }

  // ---- Lines ----

  function KeyCommand(p: Program, cmd: Cmd): Program
    requires Placed(p) && p.front.mode == InKey
  {
    var (e, at) := (Emit(p.front.names, cmd, true), p.front.at);
    var q := Renamed(p, e.names);
    if e.instr.None? then q else q.(keys := p.keys[at := KeyGrown(p.keys[at], e.instr.value)])
  }

  function SubCommand(p: Program, cmd: Cmd): Program
    requires Placed(p) && (p.front.mode == InSub || p.front.mode == InIf)
  {
    var (e, at) := (Emit(p.front.names, cmd, false), p.front.at);
    var q := Renamed(p, e.names);
    if e.instr.None? || !SubHasRoom(p.subs[at], at, e.instr.value) then q
    else q.(subs := p.subs[at := Appended(p.subs[at], e.instr.value, p.front.mode == InIf)])
  }

  function GotoInIf(p: Program, target: Option<string>): Program
    requires Placed(p) && p.front.mode == InIf
  {
    var (names, at) := (p.front.names, p.front.at);
    if target.None? then p
    else match Entry(names.subs, target.value, SUB_ROOM, true)
    case None => p
    case Some(i) =>
      Renamed(p, names.(subs := Grown(names.subs, target.value, SUB_ROOM, true)))
      .(subs := p.subs[at := Appended(p.subs[at], Branch(p.subs[at], i), true)])
  }

  function KeyBegun(p: Program, line: Line): Program
    requires Placed(p) && line.KeyLine?
  {
    var names := p.front.names;
    if line.name.None? then p
    else match Entry(names.keys, line.name.value, KEY_ROOM, true)
    case None => p
    case Some(i) =>
      var q := Renamed(p, names.(keys := Grown(names.keys, line.name.value, KEY_ROOM, true)));
      if p.keys[i].KeyMade? || !line.is_ || line.short.None? || line.long == Some(None) then q
      else
        var long := if line.long.Some? then line.long.value.value else line.short.value;
        q.(front := Front(InKey, i, q.front.names), keys := p.keys[i := KeyMaking(long, line.short.value, [])])
  }

  function SubBegun(p: Program, name: Option<string>, is_: bool): Program
    requires Placed(p)
  {
    var names := p.front.names;
    if name.None? then p
    else match Entry(names.subs, name.value, SUB_ROOM, true)
    case None => p
    case Some(i) =>
      var q := Renamed(p, names.(subs := Grown(names.subs, name.value, SUB_ROOM, true)));
      if p.subs[i].SubMade? then q
      else q.(front := if is_ then Front(InSub, i, q.front.names) else q.front, subs := p.subs[i := ANNOUNCED])
  }

  function DisplayFilled(p: Program, line: Line): Program
    requires Placed(p) && line.DisplayLine?
  {
    var names := p.front.names;
    if line.name.None? then p
    else
      var i := Place(names.displays, line.name.value);
      if i < |names.displays| || |names.displays| == DISPLAY_ROOM then p
      else
        var q := Renamed(p, names.(displays := Grown(names.displays, line.name.value, DISPLAY_ROOM, true)));
        if !line.is_ || line.one.None? then q
        else q.(displays := p.displays[i := Columns(line.one.value, line.two, line.q)])
  }

  function Declared(p: Program, line: Line): Program
    requires Placed(p)
  {
    var names := p.front.names;
    match line
    case KeyLine(_, _, _, _) => KeyBegun(p, line)
    case SubLine(name, is_) => SubBegun(p, name, is_)
    case StateLine(Some(name)) => Renamed(p, names.(states := Grown(names.states, name, STATE_ROOM, true)))
    case FlagLine(Some(name)) => Renamed(p, names.(flags := Grown(names.flags, name, FLAG_ROOM, true)))
    case DisplayLine(_, _, _, _, _) => DisplayFilled(p, line)
    case _ => p
  }

  function KeyEnded(p: Program): Program
    requires Placed(p) && p.front.mode == InKey
  {
    var (d, at) := (p.keys[p.front.at], p.front.at);
    p.(front := Front(Normal, 0, p.front.names), keys := p.keys[at := KeyMade(d.long, d.short, d.code)])
  }

  function SubEnded(p: Program): Program
    requires Placed(p) && p.front.mode == InSub
  {
    var (d, at) := (p.subs[p.front.at], p.front.at);
    p.(front := Front(Normal, 0, p.front.names), subs := p.subs[at := SubMade(d.code, d.clause, d.inside)])
  }

  function IfBegun(p: Program, event: nat): Program
    requires Placed(p) && p.front.mode == InSub
  {
    p.(front := p.front.(mode := InIf), subs := p.subs[p.front.at := ClauseOpened(p.subs[p.front.at], event)])
  }

  function IfEnded(p: Program): Program
    requires Placed(p) && p.front.mode == InIf
  {
    p.(front := p.front.(mode := InSub), subs := p.subs[p.front.at := ClauseClosed(p.subs[p.front.at])])
  }

  /** The meaning of one line. */
  function Step(p: Program, line: Line): Program
    requires Placed(p)
  {
    match p.front.mode
    case Normal => Declared(p, line)
    case InKey => if line.Command? then KeyCommand(p, line.cmd) else if line.EndKey? then KeyEnded(p) else p
    case InSub =>
      if line.Command? then SubCommand(p, line.cmd)
      else if line.EndSub? then SubEnded(p)
      else if line.IfEventLine? && line.event >= 1 && line.then_ then IfBegun(p, line.event)
      else p
    case InIf =>
      if line.Command? && line.cmd.GotoCmd? then GotoInIf(p, line.cmd.target)
      else if line.Command? then SubCommand(p, line.cmd)
      else if line.EndIf? then IfEnded(p)
      else p
  }

  /** An empty script: the one entry there is from the start is the subroutine main. */
  function Start(): Program {
    Program(Front(Normal, 0, Names([], ["main"], [], [], [])),
      seq(KEY_ROOM, _ => NoKey), seq(SUB_ROOM, _ => NoSub), seq(DISPLAY_ROOM, _ => NoDisplay))
  }
}

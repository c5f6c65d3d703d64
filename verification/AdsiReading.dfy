/** ADSIProg: reading the byte code back.

    A reader of instruction bytes, written from the two opcode tables and the layout of the three kinds of
    message, as a phone would read them.  What the compiler writes for a command, a key, a subroutine or a
    display reads back as that command, key, subroutine or display. */
module AdsiReading {
  import opened Common
  import opened AdsiTables
  import opened AdsiCode
  import opened AdsiEntries
  import opened AdsiProgram
  import opened AdsiSoundness
  import opened AdsiCompiler

  // ---- Names and numbers ----

  /** Number n stands for the first entry under a name. */
  predicate Is(table: seq<string>, name: string, n: int) {
    1 <= n <= |table| && SameText(table[n - 1], name) && Unknown(table[..n - 1], name)
  }

  predicate Unknown(table: seq<string>, name: string) {
    forall j :: 0 <= j < |table| ==> !SameText(table[j], name)
  }

  /** An entry under a name, or under as much of it as there is room for. */
  predicate Stored(entry: string, name: string) {
    SameText(entry, name) || (|name| > NAME_ROOM && entry == name[..NAME_ROOM])
  }

  /** Entry i of a table stands for a name. */
  predicate Holds(table: seq<string>, name: string, i: int) {
    0 <= i < |table| && Stored(table[i], name)
  }

  lemma PlaceIs(table: seq<string>, name: string)
    ensures Place(table, name) < |table| ==> Is(table, name, Place(table, name) + 1)
    ensures Place(table, name) == |table| ==> Unknown(table, name)
  {
    PlaceMeaning(table, name);
  }

  /** A table after a line that may add a name to it: the name is there, in the place it had or at the end, or
      the table is full. */
  predicate Registered(table: seq<string>, table': seq<string>, name: string, room: nat) {
    if Unknown(table, name) && |table| < room then
      |table'| == |table| + 1 && table'[..|table|] == table && Stored(table'[|table|], name)
    else table' == table
  }

  lemma GrownRegisters(table: seq<string>, name: string, room: nat)
    ensures Registered(table, Grown(table, name, room, true), name, room)
    ensures match Entry(table, name, room, true)
            case None => Unknown(table, name) && |table| >= room
            case Some(i) => Holds(Grown(table, name, room, true), name, i)
  {
    PlaceIs(table, name);
  }

  // ---- Instructions ----

  datatype Reading =
    | Nothing
    | KeysShown(ids: Bytes, flag: int)
    | DisplayShown(display: int, update: bool, line: int, flag: int)
    | FlagPut(flag: int, on: bool)
    | EventBound(event: Byte, sub: int, states: Bytes)
    | Branched(event: Byte, sub: int)
    | Clause(event: Byte, count: Byte)
    | WentTo(sub: Byte)
    | Unread

  /** A count in the low three bits, a flag above them, and as many key numbers. */
  function ReadKeys(b: Bytes): Reading {
    if |b| >= 2 && |b| == 2 + b[1] % 8 then KeysShown(b[2..], b[1] / 8) else Unread
  }

  /** A display in the low six bits and how to show it above them; a line above a flag. */
  function ReadDisplay(b: Bytes): Reading {
    if |b| == 3 && (b[1] / 64 == 1 || b[1] / 64 == 3) then
      DisplayShown(b[1] % 64, b[1] / 64 == 3, b[2] / 8, b[2] % 8)
    else Unread
  }

  /** A flag above the bit that sets it. */
  function ReadFlag(b: Bytes): Reading {
    if |b| == 2 && b[1] % 16 < 2 then FlagPut(b[1] / 16, b[1] % 2 == 1) else Unread
  }

  /** An event and a subroutine, marked for as long as the script runs or else for this clause. */
  function ReadEvent(b: Bytes): Reading {
    if |b| >= 3 && b[2] >= 128 then EventBound(b[1], b[2] - 128, b[3..])
    else if |b| == 3 then Branched(b[1], b[2])
    else Unread
  }

  /** What the bytes of one instruction say. */
  function Read(b: Bytes, inKey: bool): Reading {
    if b == [] then Nothing
    else if b[0] == (if inKey then 0x99 else 2) then ReadKeys(b)
    else if b[0] == (if inKey then 0x98 else 3) then ReadDisplay(b)
    else if b[0] == (if inKey then 0x9c else 10) then ReadFlag(b)
    else if !inKey && b[0] == 8 then ReadEvent(b)
    else if !inKey && b[0] == 1 && |b| == 3 then Clause(b[1], b[2])
    else if inKey && b[0] == 0x9d && |b| == 2 then WentTo(b[1])
    else Unread
  }

  /** What a command of a script reads as. */
  ghost function Reads(names: Names, cmd: Cmd, inKey: bool): Option<Reading> {
    var e := Emit(names, cmd, inKey);
    if e.instr.None? then None else Some(Read(Words(e.instr.value), inKey))
  }

  /** SETFLAG sets and CLEARFLAG clears the flag it names, in a key and in a subroutine; without a declared flag
      there is no instruction. */
  lemma FlagReads(names: Names, name: Option<string>, on: bool, inKey: bool)
    requires NamesOk(names)
    ensures match Reads(names, FlagCmd(name, on), inKey)
            case Some(Nothing) => name.Some? ==> Unknown(names.flags, name.value)
            case Some(FlagPut(flag, on')) => on' == on && name.Some? && Is(names.flags, name.value, flag)
            case _ => false
  {
    if name.Some? { PlaceIs(names.flags, name.value); }
  }

  /** SHOWDISPLAY shows the display it names, with or without update, at its line and unless its flag, each
      in as many bits as there are for it. */
  lemma DisplayReads(names: Names, name: Option<string>, spot: Option<Spot>, inKey: bool)
    requires NamesOk(names)
    ensures match Reads(names, ShowDisplayCmd(name, spot), inKey)
            case Some(Nothing) => name.Some? && spot.Some? ==> Unknown(names.displays, name.value)
            case Some(DisplayShown(display, update, line, flag)) =>
              && name.Some? && spot.Some? && Is(names.displays, name.value, display)
              && update == spot.value.update && line == spot.value.line % 32 && flag == spot.value.flag % 8
            case _ => false
  {
    if name.Some? { PlaceIs(names.displays, name.value); }
  }

  /** ONEVENT binds its event to the subroutine it names, with a zero for each of its states; it binds nothing
      for an event there is not, for more than eight states or an undeclared one, without a target, and when the
      table of subroutines is full. */
  lemma OnEventReads(names: Names, event: nat, states: seq<Option<string>>, target: Option<string>)
    requires NamesOk(names)
    ensures match Reads(names, OnEventCmd(event, states, target), false)
            case Some(Nothing) =>
              || event == 0 || |states| > 8 || target.None?
              || (exists k :: 0 <= k < |states| && (states[k].Some? ==> Unknown(names.states, states[k].value)))
              || (Unknown(names.subs, target.value) && |names.subs| == SUB_ROOM)
            case Some(EventBound(event', sub, zeros)) =>
              && event' == event && event > 0 && target.Some?
              && Holds(Emit(names, OnEventCmd(event, states, target), false).names.subs, target.value, sub)
              && |zeros| == |states| <= 8 && (forall k :: 0 <= k < |zeros| ==> zeros[k] == 0)
              && (forall k :: 0 <= k < |states| ==> states[k].Some? && !Unknown(names.states, states[k].value))
            case _ => false
    ensures Reads(names, OnEventCmd(event, states, target), true) == None
  {
    if target.Some? { GrownRegisters(names.subs, target.value, SUB_ROOM); }
    forall k | 0 <= k < |states| && states[k].Some?
      ensures Place(names.states, states[k].value) < |names.states| <==> !Unknown(names.states, states[k].value)
    {
      PlaceIs(names.states, states[k].value);
    }
    if StatesOk(names.states, states) { BoundReads(names, event, states, target); }
  }

  /** The bytes of a bound event. */
  lemma BoundReads(names: Names, event: nat, states: seq<Option<string>>, target: Option<string>)
    requires NamesOk(names) && StatesOk(names.states, states)
    ensures event > 0 && target.Some? && Entry(names.subs, target.value, SUB_ROOM, true).Some? ==>
      Reads(names, OnEventCmd(event, states, target), false)
      == Some(EventBound(event, Entry(names.subs, target.value, SUB_ROOM, true).value, Zeros(|states|)))
  {
    if event > 0 && target.Some? && Entry(names.subs, target.value, SUB_ROOM, true).Some? {
      var i := Entry(names.subs, target.value, SUB_ROOM, true).value;
      assert Words(SubRef([8, event], i, true, Zeros(|states|))) == [8, event, i + 128] + Zeros(|states|);
    }
  }

  /** GOTO in a key goes to the subroutine it names; in a subroutine it is no command of its own. */
  lemma GotoReads(names: Names, target: Option<string>)
    requires NamesOk(names)
    ensures match Reads(names, GotoCmd(target), true)
            case Some(Nothing) => target.Some? ==> Unknown(names.subs, target.value) && |names.subs| == SUB_ROOM
            case Some(WentTo(sub)) =>
              target.Some? && Holds(Emit(names, GotoCmd(target), true).names.subs, target.value, sub)
            case _ => false
    ensures Reads(names, GotoCmd(target), false) == None
  {
    if target.Some? { GrownRegisters(names.subs, target.value, SUB_ROOM); }
  }

  /** What a key number stands for: the key named, or the stray byte of a word that is no name. */
  predicate WordIs(word: KeyWord, id: Byte, keys: seq<string>) {
    match word
    case Named(name) => Holds(keys, name, id - 2)
    case Stray(byte) => id == byte
  }

  /** Why a word was left out: six keys are shown, or there is no room for a new one. */
  predicate NoRoomFor(word: KeyWord, shown: nat, keys: seq<string>) {
    shown == 6 || (word.Named? && Unknown(keys, word.name) && |keys| == KEY_ROOM)
  }

  /** The numbers from place n on are those of the words, in order, up to a word that was left out. */
  predicate Gathered(words: seq<KeyWord>, n: nat, r: Refs) {
    && n <= |r.ids| <= n + |words|
    && (forall k :: n <= k < |r.ids| ==> WordIs(words[k - n], r.ids[k], r.names))
    && (r.complete <==> |r.ids| == n + |words|)
    && (|r.ids| < n + |words| ==> NoRoomFor(words[|r.ids| - n], |r.ids|, r.names))
  }

  /** The numbers collected so far, with one word more. */
  function Noted(r: Refs, word: KeyWord): Option<Refs> {
    match word
    case Stray(byte) => Some(r.(ids := r.ids + [byte], sound := false))
    case Named(name) =>
      match Entry(r.names, name, KEY_ROOM, true)
      case None => None
      case Some(i) => Some(r.(names := Grown(r.names, name, KEY_ROOM, true), ids := r.ids + [i + 2]))
  }

  lemma NotedMeaning(r: Refs, word: KeyWord)
    requires |r.names| <= KEY_ROOM
    ensures match Noted(r, word)
            case None => word.Named? && Unknown(r.names, word.name) && |r.names| == KEY_ROOM
            case Some(r') =>
              && r'.complete == r.complete && r.names <= r'.names && |r'.names| <= KEY_ROOM
              && |r'.ids| == |r.ids| + 1 && r.ids <= r'.ids && WordIs(word, r'.ids[|r.ids|], r'.names)
  {
    if word.Named? { GrownRegisters(r.names, word.name, KEY_ROOM); }
  }

  lemma CollectNext(words: seq<KeyWord>, r: Refs)
    requires words != [] && |r.ids| < 6
    ensures Collect(words, r) == match Noted(r, words[0])
                                 case None => r.(complete := false)
                                 case Some(r') => Collect(words[1..], r')
  {
  }

  lemma {:induction false} CollectGathers(words: seq<KeyWord>, r: Refs)
    requires r.complete && |r.ids| <= 6 && |r.names| <= KEY_ROOM
    ensures var r' := Collect(words, r); r.ids <= r'.ids && r.names <= r'.names && Gathered(words, |r.ids|, r')
    decreases |words|
  {
    if words == [] || |r.ids| == 6 {
    } else {
      NotedMeaning(r, words[0]);
      CollectNext(words, r);
      match Noted(r, words[0])
      case None =>
      case Some(r1) =>
        CollectGathers(words[1..], r1);
        WordStays(words[0], r1.ids[|r.ids|], r1.names, Collect(words, r).names);
        GatheredMore(words, |r.ids|, Collect(words, r));
    }
  }

  lemma WordStays(word: KeyWord, id: Byte, keys: seq<string>, keys': seq<string>)
    requires WordIs(word, id, keys) && keys <= keys'
    ensures WordIs(word, id, keys')
  {
  }

  /** One word more in front. */
  lemma GatheredMore(words: seq<KeyWord>, n: nat, r: Refs)
    requires words != [] && n < |r.ids| && WordIs(words[0], r.ids[n], r.names) && Gathered(words[1..], n + 1, r)
    ensures Gathered(words, n, r)
  {
    forall k | n <= k < |r.ids| ensures WordIs(words[k - n], r.ids[k], r.names) {
      if k > n { assert words[k - n] == words[1..][k - (n + 1)]; }
    }
  }

  /** SHOWKEYS shows the keys it names, in order and at most six, unless the flag it names; when a word is left
      out the flag is too. */
  lemma ShowKeysReads(names: Names, words: seq<KeyWord>, unless: Option<string>, inKey: bool)
    requires NamesOk(names)
    ensures var keys := Emit(names, ShowKeysCmd(words, unless), inKey).names.keys;
      match Reads(names, ShowKeysCmd(words, unless), inKey)
      case Some(KeysShown(ids, flag)) =>
        && |ids| <= |words| && |ids| <= 6
        && (forall k :: 0 <= k < |ids| ==> WordIs(words[k], ids[k], keys))
        && (|ids| < |words| ==> flag == 0 && NoRoomFor(words[|ids|], |ids|, keys))
        && (|ids| == |words| && unless.Some? ==>
            if flag == 0 then Unknown(names.flags, unless.value) else Is(names.flags, unless.value, flag))
        && (unless.None? ==> flag == 0)
      case _ => false
  {
    var r := Collect(words, Refs(names.keys, [], true, true));
    CollectGathers(words, Refs(names.keys, [], true, true));
    CollectKeeps(words, Refs(names.keys, [], true, true));
    if unless.Some? { PlaceIs(names.flags, unless.value); }
    ShowKeysWords(r, FlagNumber(names.flags, unless), if inKey then 0x99 else 2);
  }

  lemma ShowKeysWords(r: Refs, flag: nat, op: Byte)
    requires |r.ids| <= 6
    ensures ReadKeys(Words(ShowKeysInstr(r, flag, op))) == KeysShown(r.ids, if r.complete then flag else 0)
    ensures Words(ShowKeysInstr(r, flag, op)) != [] && Words(ShowKeysInstr(r, flag, op))[0] == op
  {
    var f := if r.complete then flag else 0;
    var b := Words(ShowKeysInstr(r, flag, op));
    assert b == [op, 8 * f + |r.ids|] + r.ids;
    assert b[2..] == r.ids;
    assert (8 * f + |r.ids|) / 8 == f && (8 * f + |r.ids|) % 8 == |r.ids|;
  }

  /** A command that stands for fixed bytes stands for them, in a key and in a subroutine, or for nothing. */
  lemma FixedReads(names: Names, key: Option<Bytes>, sub: Option<Bytes>)
    ensures Emit(names, Fixed(key, sub), true) == Emitted(names, if key.None? then None else Some(Plain(key.value)))
    ensures Emit(names, Fixed(key, sub), false) == Emitted(names, if sub.None? then None else Some(Plain(sub.value)))
  {
  }

  /** A command changes no table but the one it names things in: keys for SHOWKEYS, subroutines for GOTO and
      ONEVENT. */
  lemma EmitTables(names: Names, cmd: Cmd, inKey: bool)
    ensures var names' := Emit(names, cmd, inKey).names;
            && names'.states == names.states && names'.flags == names.flags && names'.displays == names.displays
            && (!cmd.ShowKeysCmd? ==> names'.keys == names.keys)
            && (!cmd.OnEventCmd? && !cmd.GotoCmd? ==> names'.subs == names.subs)
  {
  }

  // ---- Messages ----

  /** The bytes before the first 255. */
  function Field(b: Bytes): (f: Bytes)
    ensures |f| <= |b|
  {
    if b == [] || b[0] == 255 then [] else [b[0]] + Field(b[1..])
  }

  /** The bytes after the first 255. */
  function After(b: Bytes): (rest: Bytes)
    ensures |rest| <= |b|
  {
    if b == [] then [] else if b[0] == 255 then b[1..] else After(b[1..])
  }

  lemma {:induction false} FieldIs(f: Bytes, rest: Bytes)
    requires 255 !in f
    ensures Field(f + [255] + rest) == f && After(f + [255] + rest) == rest
  {
    var b := f + [255] + rest;
    if f == [] {
      assert b[1..] == rest;
    } else {
      assert b[1..] == f[1..] + [255] + rest;
      FieldIs(f[1..], rest);
    }
  }

  /** The first characters of a text, as many as there is room for. */
  predicate Clipped(text: Bytes, clip: Bytes, room: nat) {
    clip <= text && |clip| == if |text| < room then |text| else room
  }

  /** A key message is 128, the length of the rest, the key's number, its long and its short name, each closed
      by 255, and its code. */
  lemma KeyReads(d: KeyDef, id: nat)
    requires d.KeyMade? && KeyFits(d) && 255 !in d.long && 255 !in d.short
    ensures var b := KeyImage(d, id).retstr;
            && |b| > 3 && b[0] == 128 && b[1] == |b| - 2 && b[2] == id
            && Clipped(d.long, Field(b[3..]), 18) && Clipped(d.short, Field(After(b[3..])), 7)
            && After(After(b[3..])) == KeyCode(d.code)
  {
    var (b, long, short, code) := (KeyImage(d, id).retstr, Cut(d.long, 18), Cut(d.short, 7), KeyCode(d.code));
    assert b[3..] == long + [255] + (short + [255] + code);
    FieldIs(long, short + [255] + code);
    FieldIs(short, code);
  }

  /** A subroutine message is 130, the length of the rest, whether it is the last, then, but for main, its label
      with its number and its number of instructions, and its code. */
  lemma SubReads(d: SubDef, id: nat, last: bool)
    requires d.SubMade?
    ensures var (b, code) := (SubMessage(SubImage(d, id).data, last), SubCode(d.code, |d.code|));
            && |b| > 2 && b[0] == 130 && b[1] == (|b| - 2) % 256 && b[2] == (if last then 128 else 0)
            && b[3..] == (if id == 0 then code else [9, id, |d.code| % 256, 255] + code)
  {
    var (data, code) := (SubImage(d, id).data, SubCode(d.code, |d.code|));
    assert data[3..] == if id == 0 then code else [9, id, |d.code| % 256, 255] + code;
  }

  /** A display message is 129, the length of the rest, the display's number below its justification, whether it
      wraps, 255, and its columns with 255 between them; without good qualifiers the first five are zero. */
  lemma DisplayMessageReads(d: DisplayDef, id: nat)
    requires d.Columns? && 0 <= id < 64 && 255 !in d.one
    ensures var b := DisplayImage(d, id);
            && |b| > 5 && Clipped(d.one, Field(b[5..]), 20)
            && (if d.two.Some? then Clipped(d.two.value, After(b[5..]), 20) else After(b[5..]) == [])
            && (d.q.good ==>
                && b[0] == 129 && b[1] == |b| - 2 && b[2] % 64 == id && b[2] / 64 == d.q.justify % 4
                && b[3] == (if d.q.wrap then 128 else 0) && b[4] == 255)
            && (!d.q.good ==> b[..5] == [0, 0, 0, 0, 0])
  {
    var second := if d.two.Some? then Cut(d.two.value, 20) else [];
    assert DisplayImage(d, id)[5..] == Cut(d.one, 20) + [255] + second;
    FieldIs(Cut(d.one, 20), second);
  }

  // ---- Lines ----

  /** Nothing but the names of states changes, or of flags. */
  lemma DeclareReads(p: Program, name: string)
    requires Placed(p) && p.front.mode == Normal
    ensures var (q, states) := (Step(p, StateLine(Some(name))), Step(p, StateLine(Some(name))).front.names.states);
            && q == Renamed(p, p.front.names.(states := states))
            && Registered(p.front.names.states, states, name, STATE_ROOM)
    ensures var (q, flags) := (Step(p, FlagLine(Some(name))), Step(p, FlagLine(Some(name))).front.names.flags);
            && q == Renamed(p, p.front.names.(flags := flags))
            && Registered(p.front.names.flags, flags, name, FLAG_ROOM)
  {
    GrownRegisters(p.front.names.states, name, STATE_ROOM);
    GrownRegisters(p.front.names.flags, name, FLAG_ROOM);
  }

  /** The only entry that differs, if any does. */
  predicate OnlyAt<T(==)>(a: seq<T>, b: seq<T>, i: nat) {
    |a| == |b| && forall j :: 0 <= j < |a| && j != i ==> a[j] == b[j]
  }

  /** KEY enters its name and, with its texts and unless the key is defined already, begins that key: with both
      texts, or with the short one for both, and no code. */
  lemma KeyLineReads(p: Program, name: string, is_: bool, short: Option<Bytes>, long: Option<Option<Bytes>>)
    requires Placed(p) && p.front.mode == Normal
    ensures var q := Step(p, KeyLine(Some(name), is_, short, long));
            && q.subs == p.subs && q.displays == p.displays
            && q.front.names == p.front.names.(keys := q.front.names.keys)
            && Registered(p.front.names.keys, q.front.names.keys, name, KEY_ROOM)
            && (q.front.mode == InKey ==>
                && Holds(q.front.names.keys, name, q.front.at) && !p.keys[q.front.at].KeyMade? && is_
                && short.Some? && (long.Some? ==> long.value.Some?) && OnlyAt(p.keys, q.keys, q.front.at)
                && q.keys[q.front.at]
                   == KeyMaking(if long.Some? then long.value.value else short.value, short.value, []))
            && (q.front.mode != InKey ==>
                && q.keys == p.keys && q.front == p.front.(names := q.front.names)
                && (|| !is_ || short.None? || long == Some(None) || Place(q.front.names.keys, name) == KEY_ROOM
                    || p.keys[Place(p.front.names.keys, name)].KeyMade?))
  {
    GrownRegisters(p.front.names.keys, name, KEY_ROOM);
  }

  /** SUB enters its name and announces that subroutine unless it is defined already; with IS it begins it. */
  lemma SubLineReads(p: Program, name: string, is_: bool)
    requires Placed(p) && p.front.mode == Normal
    ensures var q := Step(p, SubLine(Some(name), is_));
            && q.keys == p.keys && q.displays == p.displays
            && q.front.names == p.front.names.(subs := q.front.names.subs)
            && Registered(p.front.names.subs, q.front.names.subs, name, SUB_ROOM)
            && (q.front.mode == InSub ==>
                && Holds(q.front.names.subs, name, q.front.at) && !p.subs[q.front.at].SubMade? && is_
                && OnlyAt(p.subs, q.subs, q.front.at) && q.subs[q.front.at] == SubMaking(false, [], None, 0))
            && (q.front.mode != InSub ==>
                && q.front == p.front.(names := q.front.names)
                && (|| !is_ || Place(q.front.names.subs, name) == SUB_ROOM
                    || p.subs[Place(p.front.names.subs, name)].SubMade?))
  {
    GrownRegisters(p.front.names.subs, name, SUB_ROOM);
  }

  /** DISPLAY enters a new name and fills that display with its columns and qualifiers; a name there is already
      is left as it is. */
  lemma DisplayLineReads(p: Program, name: string, is_: bool, one: Option<Bytes>, two: Option<Bytes>, q: Qualifiers)
    requires Placed(p) && p.front.mode == Normal
    ensures var (r, n) := (Step(p, DisplayLine(Some(name), is_, one, two, q)), |p.front.names.displays|);
            && r.keys == p.keys && r.subs == p.subs && r.front.mode == Normal
            && r.front.names == p.front.names.(displays := r.front.names.displays)
            && Registered(p.front.names.displays, r.front.names.displays, name, DISPLAY_ROOM)
            && (if |r.front.names.displays| > n && is_ && one.Some?
                then OnlyAt(p.displays, r.displays, n) && r.displays[n] == Columns(one.value, two, q)
                else r.displays == p.displays)
  {
    GrownRegisters(p.front.names.displays, name, DISPLAY_ROOM);
    PlaceIs(p.front.names.displays, name);
  }

  /** A command in a key puts its bytes behind those there are, if the key's code stays within 20 bytes. */
  lemma KeyTakes(p: Program, cmd: Cmd, i: Instr)
    requires Placed(p) && p.front.mode == InKey && Emit(p.front.names, cmd, true).instr == Some(i)
    ensures var (q, at) := (Step(p, Command(cmd)), p.front.at);
            && OnlyAt(p.keys, q.keys, at) && q.subs == p.subs && q.displays == p.displays && q.keys[at].KeyMaking?
            && q.keys[at].long == p.keys[at].long && q.keys[at].short == p.keys[at].short
            && var before := KeyCode(p.keys[at].code);
            KeyCode(q.keys[at].code) == if |before + Words(i)| <= 20 then before + Words(i) else before
  {
    CodeSnoc(p.keys[p.front.at].code, i);
  }

  /** A command in a subroutine puts its bytes and 255 behind those there are, if the buffer stays within 255
      bytes, or within 1600 for main. */
  lemma SubTakes(p: Program, cmd: Cmd, i: Instr)
    requires Placed(p) && (p.front.mode == InSub || p.front.mode == InIf) && !cmd.GotoCmd?
    requires Emit(p.front.names, cmd, false).instr == Some(i)
    ensures var (q, at) := (Step(p, Command(cmd)), p.front.at);
            && OnlyAt(p.subs, q.subs, at) && q.keys == p.keys && q.displays == p.displays
            && var before := SubImage(p.subs[at], at).data;
            && SubImage(q.subs[at], at).data
               == (if |before| + |Words(i)| + 1 <= (if at == 0 then 1600 else 255)
                   then before + (Words(i) + [255]) else before)
  {
    AppendedImage(p.subs[p.front.at], p.front.at, i, p.front.mode == InIf);
  }

  // ---- Whole scripts ----

  lemma RunTwo(p: Program, a: Line, b: Line)
    requires Sound(p)
    ensures Placed(p) && Placed(Step(p, a)) && Run(p, [a, b]) == Step(Step(p, a), b)
  {
    StepSound(p, a);
    StepSound(Step(p, a), b);
    RunSteps(p, a, [b]);
    RunSteps(Step(p, a), b, []);
    assert [b] + [] == [b] && [a] + [b] == [a, b];
  }

  /** KEY, its name, its texts and ENDKEY give one key message that reads as that key, number 2. */
  lemma KeyScript(name: string, short: Bytes, long: Bytes)
    requires 255 !in short && 255 !in long
    ensures var p := Meaning([KeyLine(Some(name), true, Some(short), Some(Some(long))), EndKey]);
            && |MessagesOf(p).keys| == 1
            && var b := MessagesOf(p).keys[0];
            && |b| > 3 && b[0] == 128 && b[1] == |b| - 2 && b[2] == 2
            && Clipped(long, Field(b[3..]), 18) && Clipped(short, Field(After(b[3..])), 7) && After(After(b[3..])) == []
  {
    var line := KeyLine(Some(name), true, Some(short), Some(Some(long)));
    StartSound();
    RunTwo(Start(), line, EndKey);
    var p := Step(Start(), line);
    assert p.keys[0] == KeyMaking(long, short, []);
    KeyReads(KeyMade(long, short, []), 2);
  }

  /** DISPLAY, its name and its columns give one display message that reads as that display, number 1. */
  lemma DisplayScript(name: string, one: Bytes, two: Bytes, q: Qualifiers)
    requires 255 !in one && q.good
    ensures var p := Meaning([DisplayLine(Some(name), true, Some(one), Some(two), q)]);
            && |MessagesOf(p).displays| == 1
            && var b := MessagesOf(p).displays[0];
            && |b| > 5 && b[0] == 129 && b[1] == |b| - 2 && b[2] == 64 * (q.justify % 4) + 1
            && b[3] == (if q.wrap then 128 else 0)
            && Clipped(one, Field(b[5..]), 20) && Clipped(two, After(b[5..]), 20)
  {
    var line := DisplayLine(Some(name), true, Some(one), Some(two), q);
    StartSound();
    StepSound(Start(), line);
    RunSteps(Start(), line, []);
    assert [line] + [] == [line];
    DisplayMessageReads(Columns(one, Some(two), q), 1);
  }

  lemma OneBlock(i: Instr)
    ensures SubCode([i], 1) == Block(i)
  {
    CodeSnoc([], i);
    assert [] + [i] == [i];
    assert SubCode([], 0) + Block(i) == Block(i);
  }

  /** FLAG f, SUB main IS, SETFLAG f or CLEARFLAG f, ENDSUB: the one block of main sets flag 1, or clears it. */
  lemma FlagScript(f: string, on: bool)
    requires |f| <= NAME_ROOM
    ensures var main := SubLine(Some("main"), true);
            MessagesOf(Meaning([FlagLine(Some(f)), main, Command(FlagCmd(Some(f), on)), EndSub])).subs
            == [[130, 4, 128, 10, if on then 17 else 16, 255]]
  {
    var (flag, main, cmd) := (FlagLine(Some(f)), SubLine(Some("main"), true), Command(FlagCmd(Some(f), on)));
    StartSound();
    StepSound(Start(), flag);
    var p := Step(Start(), flag);
    RunSteps(Start(), flag, [main, cmd, EndSub]);
    assert [flag] + [main, cmd, EndSub] == [flag, main, cmd, EndSub];
    StepSound(p, main);
    var q := Step(p, main);
    RunSteps(p, main, [cmd, EndSub]);
    assert [main] + [cmd, EndSub] == [main, cmd, EndSub];
    RunTwo(q, cmd, EndSub);
    FlagInMain(q, f, on);
  }

  lemma FlagInMain(q: Program, f: string, on: bool)
    requires Sound(q) && InMainAlone(q) && q.subs[0] == ANNOUNCED
    requires |q.front.names.flags| == 1 && SameText(q.front.names.flags[0], f)
    ensures var r := Step(q, Command(FlagCmd(Some(f), on)));
            Placed(r) && MessagesOf(Step(r, EndSub)).subs == [[130, 4, 128, 10, if on then 17 else 16, 255]]
  {
    var i := Plain([10, if on then 17 else 16]);
    assert Emit(q.front.names, FlagCmd(Some(f), on), false) == Emitted(q.front.names, Some(i));
    FirstInMain(q, FlagCmd(Some(f), on), i);
    StepSound(Step(q, Command(FlagCmd(Some(f), on))), EndSub);
    MainAlone(Step(Step(q, Command(FlagCmd(Some(f), on))), EndSub), i);
    assert [130, 4, 128] + Words(i) + [255] == [130, 4, 128, 10, if on then 17 else 16, 255];
  }

  /** A first command in main is its one instruction. */
  lemma FirstInMain(q: Program, cmd: Cmd, i: Instr)
    requires Sound(q) && InMainAlone(q) && q.subs[0] == ANNOUNCED && |Words(i)| <= 255
    requires Emit(q.front.names, cmd, false) == Emitted(q.front.names, Some(i))
    ensures var r := Step(q, Command(cmd));
            && Sound(r) && r.front == q.front && r.subs[0] == SubMaking(false, [i], None, 0)
  {
    StepSound(q, Command(cmd));
    OneBlock(i);
    assert SubHasRoom(ANNOUNCED, 0, i);
  }

  lemma MainAlone(p: Program, i: Instr)
    requires Placed(p) && |p.front.names.subs| == 1 && p.subs[0] == SubMade([i], None, 0)
    ensures MessagesOf(p).subs == [[130, (|Words(i)| + 2) % 256, 128] + Words(i) + [255]]
  {
    MainOfOne(i);
  }

  /** The message of main alone with one instruction in it. */
  lemma MainOfOne(i: Instr)
    ensures SubMessage(SubImage(SubMade([i], None, 0), 0).data, true)
            == [130, (|Words(i)| + 2) % 256, 128] + Words(i) + [255]
  {
    SubReads(SubMade([i], None, 0), 0, true);
    OneBlock(i);
    var b := SubMessage(SubImage(SubMade([i], None, 0), 0).data, true);
    assert b == [b[0], b[1], b[2]] + b[3..];
    Associative([b[0], b[1], b[2]], Words(i), [255]);
  }

  lemma TwoBlocks(i: Instr, j: Instr)
    ensures SubCode([i, j], 2) == Block(i) + Block(j)
  {
    CodeSnoc([i], j);
    assert [i] + [j] == [i, j];
    OneBlock(i);
  }

  /** IFEVENT e THEN, GOTO t, ENDIF at the start of main: a clause on e that counts one instruction, and in it
      the branch on e to t. */
  lemma ClauseInMain(p: Program, event: nat, t: string)
    requires Sound(p) && InMainAlone(p) && p.subs[0] == ANNOUNCED && event >= 1
    requires |t| <= NAME_ROOM && !SameText(p.front.names.subs[0], t)
    ensures var q := Run(p, [IfEventLine(event, true), Command(GotoCmd(Some(t))), EndIf]);
            && q.front.mode == InSub && q.front.names.subs == p.front.names.subs + [t] && !q.subs[0].NoSub?
            && SubCode(q.subs[0].code, |q.subs[0].code|) == [1, event, 1, 255, 8, event, 1, 255]
  {
    var (clause, goto) := (IfEventLine(event, true), Command(GotoCmd(Some(t))));
    StepSound(p, clause);
    RunSteps(p, clause, [goto, EndIf]);
    assert [clause] + [goto, EndIf] == [clause, goto, EndIf];
    RunTwo(Step(p, clause), goto, EndIf);
    GotoInMain(Step(p, clause), event, t);
    TwoBlocks(IfEvent(event, 1), SubRef([8, event], 1, false, []));
  }

  lemma GotoInMain(p: Program, event: nat, t: string)
    requires Sound(p) && p.front.mode == InIf && p.front.at == 0
    requires p.subs[0] == SubMaking(false, [IfEvent(event, 0)], Some(0), 0)
    requires |p.front.names.subs| == 1 && |t| <= NAME_ROOM && !SameText(p.front.names.subs[0], t)
    ensures var q := Step(p, Command(GotoCmd(Some(t))));
            && Placed(q) && Step(q, EndIf).front.mode == InSub
            && Step(q, EndIf).front.names.subs == p.front.names.subs + [t]
            && Step(q, EndIf).subs[0]
               == SubMaking(true, [IfEvent(event, 1), SubRef([8, event], 1, false, [])], Some(0), 1)
  {
    var goto := Command(GotoCmd(Some(t)));
    StepSound(p, goto);
    assert Place(p.front.names.subs, t) == 1;
    var two := [IfEvent(event, 0), SubRef([8, event], 1, false, [])];
    assert Step(p, goto).subs[0] == SubMaking(false, two, Some(0), 1);
    assert two[0 := IfEvent(event, 1)] == [IfEvent(event, 1), SubRef([8, event], 1, false, [])];
  }
}

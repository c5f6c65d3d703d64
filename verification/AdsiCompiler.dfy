/** ADSIProg: the compiler.

    It keeps tables of names and buffers of bytes and changes them line by line.  Every line is proved to
    leave the buffers the image of the program the lines so far mean, so that a compiled script is exactly
    its program written out in bytes. */
module AdsiCompiler {
  import opened Common
  import opened AdsiTables
  import opened AdsiCode
  import opened AdsiEntries
  import opened AdsiProgram
  import opened AdsiSoundness
  import opened AdsiPacking

  // ---- Commands ----

  /** SHOWKEYS: up to six key names and an UNLESS clause. */
  method EmitShowKeys(names: Names, words: seq<KeyWord>, unless: Option<string>, op: Byte) returns (e: Emitted)
    ensures var r := Collect(words, Refs(names.keys, [], true, true));
      e == Emitted(names.(keys := r.names), Some(ShowKeysInstr(r, FlagNumber(names.flags, unless), op)))
  {
    var r := Refs(names.keys, [], true, true);
    ghost var start := r;
    var x := 0;
    assert words[0..] == words;
    while x < |words| && r.complete
      invariant 0 <= x <= |words|
      invariant Collect(words, start) == if r.complete then Collect(words[x..], r) else r
    {
      assert words[x..][1..] == words[x + 1..];
      if |r.ids| == 6 {
        r := r.(complete := false);
      } else {
        match words[x]
        case Stray(byte) => r := r.(ids := r.ids + [byte], sound := false);
        case Named(name) =>
          var keys, entry := GetByName(r.names, name, KEY_ROOM, true);
          match entry
          case None => r := r.(complete := false);
          case Some(i) => r := r.(names := keys, ids := r.ids + [i + 2]);
      }
      x := x + 1;
    }
    var flag := LookUpFlag(names.flags, unless);
    e := Emitted(names.(keys := r.names), Some(ShowKeysInstr(r, flag, op)));
  }

  method LookUpFlag(flags: seq<string>, name: Option<string>) returns (flag: nat)
    ensures flag == FlagNumber(flags, name)
  {
    flag := 0;
    if name.Some? {
      var _, entry := GetByName(flags, name.value, FLAG_ROOM, false);
      if entry.Some? { flag := entry.value + 1; }
    }
  }

  /** SHOWDISPLAY: a display that is known, and where to show it. */
  method EmitShowDisplay(names: Names, name: Option<string>, spot: Option<Spot>, op: Byte) returns (e: Emitted)
    ensures e == Emitted(names, Some(ShowDisplayInstr(names.displays, name, spot, op)))
  {
    e := Emitted(names, Some(Plain([])));
    if name.Some? {
      var _, entry := GetByName(names.displays, name.value, DISPLAY_ROOM, false);
      if entry.Some? && spot.Some? {
        var cmd := 3;
        if !spot.value.update { cmd := 1; }
        var where := 8 * (spot.value.line % 32) + spot.value.flag % 8;
        e := Emitted(names, Some(Plain([op, 64 * cmd + entry.value + 1, where])));
      }
    }
  }

  /** SETFLAG and CLEARFLAG: a flag that is declared. */
  method EmitFlag(names: Names, name: Option<string>, on: bool, op: Byte) returns (e: Emitted)
    ensures e == Emitted(names, Some(FlagInstr(names.flags, name, on, op)))
  {
    e := Emitted(names, Some(Plain([])));
    var flag := LookUpFlag(names.flags, name);
    if flag > 0 {
      var byte := 16 * flag;
      if on { byte := byte + 1; }
      e := Emitted(names, Some(Plain([op, byte])));
    }
  }

  /** The states of ONEVENT: at most eight, all declared. */
  method CheckStates(table: seq<string>, states: seq<Option<string>>) returns (ok: bool)
    ensures ok == StatesOk(table, states)
  {
    var k := 0;
    ok := true;
    while k < |states| && ok
      invariant 0 <= k <= |states|
      invariant ok ==> k <= 8 && forall j :: 0 <= j < k ==> states[j].Some? && Place(table, states[j].value) < |table|
      invariant !ok ==> !StatesOk(table, states)
    {
      if k > 7 || states[k].None? {
        ok := false;
      } else {
        var _, entry := GetByName(table, states[k].value, STATE_ROOM, false);
        ok := entry.Some?;
      }
      k := k + 1;
    }
  }

  method EmitCall(names: Names, target: Option<string>, before: Bytes, marked: bool, after: Bytes) returns (e: Emitted)
    ensures e == Call(names, target, before, marked, after)
  {
    e := Emitted(names, Some(Plain([])));
    if target.Some? {
      var subs, entry := GetByName(names.subs, target.value, SUB_ROOM, true);
      if entry.Some? { e := Emitted(names.(subs := subs), Some(SubRef(before, entry.value, marked, after))); }
    }
  }

  /** A command's handler. */
  method EmitCommand(names: Names, cmd: Cmd, inKey: bool) returns (e: Emitted)
    ensures e == Emit(names, cmd, inKey)
  {
    match cmd
    case ShowKeysCmd(words, unless) => e := EmitShowKeys(names, words, unless, if inKey then 0x99 else 2);
    case OnEventCmd(event, states, target) =>
      var ok := CheckStates(names.states, states);
      if inKey {
        e := Emitted(names, None);
      } else if event < 1 || !ok {
        e := Emitted(names, Some(Plain([])));
      } else {
        e := EmitCall(names, target, [8, event], true, Zeros(|states|));
      }
    case GotoCmd(target) =>
      e := Emitted(names, None);
      if inKey { e := EmitCall(names, target, [0x9d], false, []); }
    case ShowDisplayCmd(name, spot) => e := EmitShowDisplay(names, name, spot, if inKey then 0x98 else 3);
    case FlagCmd(name, on) => e := EmitFlag(names, name, on, if inKey then 0x9c else 10);
    case Fixed(key, sub) =>
      var bytes := sub;
      if inKey { bytes := key; }
      e := Emitted(names, None);
      if bytes.Some? { e := Emitted(names, Some(Plain(bytes.value))); }
  }

  // ---- Buffers ----

  function KeyImages(keys: seq<KeyDef>): seq<Key> {
    seq(|keys|, i requires 0 <= i < |keys| => KeyImage(keys[i], i + 2))
  }

  function SubImages(subs: seq<SubDef>): seq<Sub> {
    seq(|subs|, i requires 0 <= i < |subs| => SubImage(subs[i], i))
  }

  function DisplayImages(displays: seq<DisplayDef>): seq<Bytes> {
    seq(|displays|, i requires 0 <= i < |displays| => DisplayImage(displays[i], i + 1))
  }

  lemma KeyImagesSet(keys: seq<KeyDef>, i: nat, d: KeyDef)
    requires i < |keys|
    ensures KeyImages(keys[i := d]) == KeyImages(keys)[i := KeyImage(d, i + 2)]
  {
  }

  lemma SubImagesSet(subs: seq<SubDef>, i: nat, d: SubDef)
    requires i < |subs|
    ensures SubImages(subs[i := d]) == SubImages(subs)[i := SubImage(d, i)]
  {
  }

  lemma DisplayImagesSet(displays: seq<DisplayDef>, i: nat, d: DisplayDef)
    requires i < |displays|
    ensures DisplayImages(displays[i := d]) == DisplayImages(displays)[i := DisplayImage(d, i + 1)]
  {
  }

  // ---- The compiler ----

  class Compiler {
    var front: Front
    var keys: seq<Key>
    var subs: seq<Sub>
    var displays: seq<Bytes>

    ghost predicate Holds(p: Program)
      reads this
    {
      && Sound(p) && front == p.front
      && keys == KeyImages(p.keys) && subs == SubImages(p.subs) && displays == DisplayImages(p.displays)
    }

    constructor ()
      ensures Holds(Start())
    {
      front := Front(Normal, 0, Names([], ["main"], [], [], []));
      keys := seq(KEY_ROOM, _ => Key(false, 0, []));
      subs := seq(SUB_ROOM, _ => Sub(false, [], 0, 0, None));
      displays := seq(DISPLAY_ROOM, _ => []);
      StartSound();
    }

    /** A line of a soft key that is a command. */
    method InKeyCommand(cmd: Cmd, ghost p: Program)
      requires Holds(p) && p.front.mode == InKey
      modifies this
      ensures Holds(KeyCommand(p, cmd))
    {
      KeyCommandSound(p, cmd);
      var e := EmitCommand(front.names, cmd, true);
      var at := front.at;
      front := front.(names := e.names);
      if e.instr.Some? {
        var key := AddKeyCode(keys[at], at + 2, p.keys[at], e.instr.value);
        keys := keys[at := key];
        KeyImagesSet(p.keys, at, KeyGrown(p.keys[at], e.instr.value));
      }
    }

    /** A line of a subroutine, or of an IF clause in it, that is a command. */
    method InSubCommand(cmd: Cmd, ghost p: Program)
      requires Holds(p) && (p.front.mode == InSub || p.front.mode == InIf)
      modifies this
      ensures Holds(SubCommand(p, cmd))
    {
      SubCommandSound(p, cmd);
      var e := EmitCommand(front.names, cmd, false);
      var at := front.at;
      front := front.(names := e.names);
      if e.instr.Some? {
        var sub := AddInstr(subs[at], at, p.subs[at], e.instr.value, front.mode == InIf);
        subs := subs[at := sub];
        SubImagesSet(p.subs, at, Appended(p.subs[at], e.instr.value, front.mode == InIf));
      }
    }

    method InIfGoto(target: Option<string>, ghost p: Program)
      requires Holds(p) && p.front.mode == InIf
      modifies this
      ensures Holds(GotoInIf(p, target))
    {
      GotoSound(p, target);
      if target.Some? {
        var names, entry := GetByName(front.names.subs, target.value, SUB_ROOM, true);
        if entry.Some? {
          var at := front.at;
          var sub := AddGoto(subs[at], at, p.subs[at], entry.value);
          front := front.(names := front.names.(subs := names));
          subs := subs[at := sub];
          SubImagesSet(p.subs, at, Appended(p.subs[at], Branch(p.subs[at], entry.value), true));
        }
      }
    }

    method BeginKey(line: Line, ghost p: Program)
      requires Holds(p) && p.front.mode == Normal && line.KeyLine?
      modifies this
      ensures Holds(KeyBegun(p, line))
    {
      KeyBegunSound(p, line);
      if line.name.Some? {
        var names, entry := GetByName(front.names.keys, line.name.value, KEY_ROOM, true);
        if entry.Some? {
          var i := entry.value;
          front := front.(names := front.names.(keys := names));
          assert KeySound(p.keys[i], i, -1, |p.front.names.keys|, |p.front.names.subs|);
          if !keys[i].defined && line.is_ && line.short.Some? && line.long != Some(None) {
            var long := if line.long.Some? then line.long.value.value else line.short.value;
            var key := OpenKey(keys[i], i + 2, long, line.short.value);
            keys := keys[i := key];
            front := Front(InKey, i, front.names);
            KeyImagesSet(p.keys, i, KeyMaking(long, line.short.value, []));
          }
        }
      }
    }

    method BeginSub(name: Option<string>, is_: bool, ghost p: Program)
      requires Holds(p) && p.front.mode == Normal
      modifies this
      ensures Holds(SubBegun(p, name, is_))
    {
      SubBegunSound(p, name, is_);
      if name.Some? {
        var names, entry := GetByName(front.names.subs, name.value, SUB_ROOM, true);
        if entry.Some? {
          var i := entry.value;
          front := front.(names := front.names.(subs := names));
          assert SubSound(p.subs[i], i, -1, |p.front.names.keys|, |p.front.names.subs|);
          if !subs[i].defined {
            var sub := OpenSub(subs[i], i);
            subs := subs[i := sub];
            SubImagesSet(p.subs, i, ANNOUNCED);
            if is_ { front := Front(InSub, i, front.names); }
          }
        }
      }
    }

    method DefineDisplay(line: Line, ghost p: Program)
      requires Holds(p) && p.front.mode == Normal && line.DisplayLine?
      modifies this
      ensures Holds(DisplayFilled(p, line))
    {
      DeclaredSound(p, line);
      if line.name.Some? {
        var _, known := GetByName(front.names.displays, line.name.value, DISPLAY_ROOM, false);
        var names, entry := GetByName(front.names.displays, line.name.value, DISPLAY_ROOM, true);
        if known.None? && entry.Some? {
          var i := entry.value;
          front := front.(names := front.names.(displays := names));
          if line.is_ && line.one.Some? {
            var data := FillDisplay(i + 1, line.one.value, line.two, line.q);
            displays := displays[i := data];
            DisplayImagesSet(p.displays, i, Columns(line.one.value, line.two, line.q));
          }
        }
      }
    }

    method Declare(line: Line, ghost p: Program)
      requires Holds(p) && p.front.mode == Normal
      modifies this
      ensures Holds(Declared(p, line))
    {
      DeclaredSound(p, line);
      match line
      case KeyLine(_, _, _, _) => BeginKey(line, p);
      case SubLine(name, is_) => BeginSub(name, is_, p);
      case DisplayLine(_, _, _, _, _) => DefineDisplay(line, p);
      case StateLine(Some(name)) =>
        var states, _ := GetByName(front.names.states, name, STATE_ROOM, true);
        front := front.(names := front.names.(states := states));
      case FlagLine(Some(name)) =>
        var flags, _ := GetByName(front.names.flags, name, FLAG_ROOM, true);
        front := front.(names := front.names.(flags := flags));
      case _ =>
    }

    method EndKeyLine(ghost p: Program)
      requires Holds(p) && p.front.mode == InKey
      modifies this
      ensures Holds(KeyEnded(p))
    {
      EndedSound(p);
      var at := front.at;
      assert KeySound(p.keys[at], at, at, |p.front.names.keys|, |p.front.names.subs|);
      var key := CloseKey(keys[at], at + 2, p.keys[at]);
      keys := keys[at := key];
      front := Front(Normal, 0, front.names);
      KeyImagesSet(p.keys, at, KeyMade(p.keys[at].long, p.keys[at].short, p.keys[at].code));
    }

    method EndSubLine(ghost p: Program)
      requires Holds(p) && p.front.mode == InSub
      modifies this
      ensures Holds(SubEnded(p))
    {
      EndedSound(p);
      var at := front.at;
      var sub := CloseSub(subs[at], at, p.subs[at]);
      subs := subs[at := sub];
      front := Front(Normal, 0, front.names);
      SubImagesSet(p.subs, at, SubMade(p.subs[at].code, p.subs[at].clause, p.subs[at].inside));
    }

    method BeginIf(event: nat, ghost p: Program)
      requires Holds(p) && p.front.mode == InSub
      modifies this
      ensures Holds(IfBegun(p, event))
    {
      IfBegunSound(p, event);
      var at := front.at;
      var sub := OpenIf(subs[at], at, p.subs[at], event);
      subs := subs[at := sub];
      front := front.(mode := InIf);
      SubImagesSet(p.subs, at, ClauseOpened(p.subs[at], event));
    }

    method EndIfLine(ghost p: Program)
      requires Holds(p) && p.front.mode == InIf
      modifies this
      ensures Holds(IfEnded(p))
    {
      IfEndedSound(p);
      var at := front.at;
      var sub := CloseIf(subs[at], at, p.subs[at]);
      subs := subs[at := sub];
      front := front.(mode := InSub);
      SubImagesSet(p.subs, at, ClauseClosed(p.subs[at]));
    }

    /** One line: the buffers go from the image of a program to the image of what the line makes of it. */
    method Process(line: Line, ghost p: Program)
      requires Holds(p)
      modifies this
      ensures Holds(Step(p, line))
    {
      match front.mode
      case Normal => Declare(line, p);
      case InKey =>
        if line.Command? { InKeyCommand(line.cmd, p); } else if line.EndKey? { EndKeyLine(p); }
      case InSub =>
        if line.Command? { InSubCommand(line.cmd, p); }
        else if line.EndSub? { EndSubLine(p); }
        else if line.IfEventLine? && line.event >= 1 && line.then_ { BeginIf(line.event, p); }
      case InIf =>
        if line.Command? {
          if line.cmd.GotoCmd? { InIfGoto(line.cmd.target, p); } else { InSubCommand(line.cmd, p); }
        } else if line.EndIf? { EndIfLine(p); }
    }
  }

  // ---- Scripts ----

  datatype Messages = Messages(keys: seq<Bytes>, displays: seq<Bytes>, subs: seq<Bytes>)

  /** A subroutine's message; the last one says that there are no more. */
  function SubMessage(data: Bytes, last: bool): Bytes {
    if last && |data| > 2 then data[2 := 0x80] else data
  }

  /** A program written out in bytes. */
  function MessagesOf(p: Program): Messages
    requires Placed(p)
  {
    var (nk, nd, ns) := (|p.front.names.keys|, |p.front.names.displays|, |p.front.names.subs|);
    Messages(
      seq(nk, i requires 0 <= i < nk => KeyImage(p.keys[i], i + 2).retstr),
      seq(nd, i requires 0 <= i < nd => DisplayImage(p.displays[i], i + 1)),
      seq(ns, i requires 0 <= i < ns => SubMessage(SubImage(p.subs[i], i).data, i == ns - 1)))
  }

  method KeysDefined(keys: seq<Key>, n: nat, ghost p: Program) returns (ok: bool)
    requires n <= |keys| && keys == KeyImages(p.keys)
    ensures ok == forall i :: 0 <= i < n ==> KeyDefined(p, i)
  {
    var x := 0;
    ok := true;
    while x < n
      invariant 0 <= x <= n
      invariant ok == forall i :: 0 <= i < x ==> KeyDefined(p, i)
    {
      assert keys[x].defined == KeyDefined(p, x);
      ok := ok && keys[x].defined;
      x := x + 1;
    }
  }

  method SubsDefined(subs: seq<Sub>, n: nat, ghost p: Program) returns (ok: bool)
    requires n <= |subs| && subs == SubImages(p.subs)
    ensures ok == forall i :: 0 <= i < n ==> SubDefined(p, i)
  {
    var x := 0;
    ok := true;
    while x < n
      invariant 0 <= x <= n
      invariant ok == forall i :: 0 <= i < x ==> SubDefined(p, i)
    {
      assert subs[x].defined == SubDefined(p, x);
      ok := ok && subs[x].defined;
      x := x + 1;
    }
  }

  /** A script compiles exactly when its program is accepted, and then to that program's messages. */
  method CompileScript(lines: seq<Line>) returns (r: Option<Messages>)
    ensures r.Some? <==> Accepted(Meaning(lines))
    ensures r.Some? ==> r.value == MessagesOf(Meaning(lines))
  {
    StartSound();
    var c := new Compiler();
    ghost var p := Start();
    var x := 0;
    assert lines[0..] == lines;
    while x < |lines|
      invariant 0 <= x <= |lines|
      invariant c.Holds(p) && Run(p, lines[x..]) == Meaning(lines)
    {
      StepSound(p, lines[x]);
      assert lines[x..][1..] == lines[x + 1..];
      c.Process(lines[x], p);
      p := Step(p, lines[x]);
      x := x + 1;
    }
    var names := c.front.names;
    var keysOk := KeysDefined(c.keys, |names.keys|, p);
    var subsOk := SubsDefined(c.subs, |names.subs|, p);
    r := None;
    if c.front.mode != InSub && c.front.mode != InKey && keysOk && subsOk {
      var keys, displays, subs := c.keys, c.displays, c.subs;
      r := Some(Messages(
        seq(|names.keys|, i requires 0 <= i < |keys| => keys[i].retstr),
        displays[..|names.displays|],
        seq(|names.subs|, i requires 0 <= i < |subs| => SubMessage(subs[i].data, i == |names.subs| - 1))));
    }
  }

  /** Whatever the script, no key message is longer than 50 bytes and no display longer than 46. */
  lemma MessagesWithin(p: Program)
    requires Sound(p)
    ensures AllWithin(MessagesOf(p).keys) && AllWithin(MessagesOf(p).displays)
    ensures forall i :: 0 <= i < |MessagesOf(p).keys| ==> |MessagesOf(p).keys[i]| <= 50
    ensures forall i :: 0 <= i < |MessagesOf(p).displays| ==> |MessagesOf(p).displays[i]| <= 46
  {
  }

  /** SUB main IS, k lines of CLEAR and ENDSUB compile for every k up to 798, to one subroutine message of
      3 + 2k bytes, so a subroutine can be longer than a download may be. */
  lemma LongMain(k: nat)
    requires k <= 798
    ensures var p := Meaning([SubLine(Some("main"), true)] + Clears(k));
            && Accepted(p) && MessagesOf(p).keys == [] && |MessagesOf(p).subs| == 1
            && |MessagesOf(p).subs[0]| == 3 + 2 * k
            && (k >= 126 ==> !AllWithin(MessagesOf(p).subs))
  {
    var p := BeginsMain(Clears(k));
    ClearsRun(p, k);
  }

  /** Downloads that carry all the messages, no key or display download over the limit. */
  ghost predicate SentAll(d: Messages, m: Messages) {
    && Flat(d.keys) == Flat(m.keys) && Flat(d.displays) == Flat(m.displays) && Flat(d.subs) == Flat(m.subs)
    && AllWithin(d.keys) && AllWithin(d.displays) && (AllWithin(d.subs) <==> AllWithin(m.subs))
  }

  function Total(d: Messages): nat {
    |d.keys| + |d.displays| + |d.subs|
  }

  /** What the phone does: starts a session, lets the download begin, acknowledges so many downloads, takes
      the closing message, and confirms the end. */
  datatype Phone = Phone(session: bool, begins: bool, accepted: nat, shows: bool, ends: bool)

  /** Sends the three kinds of messages in turn. */
  method SendAll(m: Messages, accepted: nat) returns (ok: bool, d: Messages)
    requires AllWithin(m.keys) && AllWithin(m.displays)
    ensures ok ==> SentAll(d, m)
    ensures Total(d) <= accepted && (!ok ==> Total(d) == accepted)
  {
    ok, d := false, Messages([], [], []);
    var keys, keysOk, _ := Pack(m.keys, accepted);
    d := d.(keys := keys);
    if keysOk {
      var displays, displaysOk, _ := Pack(m.displays, accepted - |keys|);
      d := d.(displays := displays);
      if displaysOk {
        var subs, subsOk, _ := Pack(m.subs, accepted - |keys| - |displays|);
        d := d.(subs := subs);
        ok := subsOk;
      }
    }
  }

  /** Compiles a script and sends it.  Nothing is sent of a script that does not compile or to a phone that
      does not begin.  It succeeds only when the phone has got the script's program, byte for byte: keys and
      displays always in downloads within the limit, subroutines exactly when each of them is within it.  It
      fails only for a script that does not compile, where the phone stops short, or when the phone does not
      see the download through. */
  method AdsiProg(lines: seq<Line>, phone: Phone) returns (done: bool, d: Messages)
    ensures done ==> Accepted(Meaning(lines)) && SentAll(d, MessagesOf(Meaning(lines)))
    ensures done ==> phone.session && phone.begins && phone.shows && phone.ends
    ensures !Accepted(Meaning(lines)) || !phone.session || !phone.begins ==> !done && Total(d) == 0
    ensures Accepted(Meaning(lines)) && phone.session && phone.begins && !done ==>
      Total(d) == phone.accepted || (SentAll(d, MessagesOf(Meaning(lines))) && !(phone.shows && phone.ends))
    ensures Total(d) <= phone.accepted
  {
    var c := CompileScript(lines);
    done, d := false, Messages([], [], []);
    if c.Some? && phone.session && phone.begins {
      MessagesWithin(Meaning(lines));
      var ok;
      ok, d := SendAll(c.value, phone.accepted);
      done := ok && phone.shows && phone.ends;
    }
  }
}

/** ADSIProg: the buffers of soft keys, subroutines and displays.

    What a script says of an entry is a definition; its image is the buffer that stands for it.  A buffer
    is opened with a header, appended to, and closed by filling in the lengths and counts the header left
    open.  Each step is proved to keep the buffer the image of the definition. */
module AdsiEntries {
  import opened Common
  import opened AdsiCode

  const MAX_RET_CODE := 20
  const MAX_SUB_LEN := 255
  const MAX_MAIN_LEN := 1600

  function Cut(text: Bytes, room: nat): Bytes {
    if |text| > room then text[..room] else text
  }

  // ---- Soft keys ----

  datatype Key = Key(defined: bool, initlen: nat, retstr: Bytes)

  /** A key only referred to so far, one being defined, and a defined one. */
  datatype KeyDef =
    | NoKey
    | KeyMaking(long: Bytes, short: Bytes, code: seq<Instr>)
    | KeyMade(long: Bytes, short: Bytes, code: seq<Instr>)

  function KeyHead(id: nat, length: Byte, long: Bytes, short: Bytes): Bytes {
    [128, length, id] + Cut(long, 18) + [255] + Cut(short, 7) + [255]
  }

  function KeyHeadLen(long: Bytes, short: Bytes): nat {
    5 + |Cut(long, 18)| + |Cut(short, 7)|
  }

  function KeyImage(d: KeyDef, id: nat): Key {
    match d
    case NoKey => Key(false, 0, [])
    case KeyMaking(long, short, code) =>
      Key(false, KeyHeadLen(long, short), KeyHead(id, 0, long, short) + KeyCode(code))
    case KeyMade(long, short, code) =>
      var length := KeyHeadLen(long, short) + |KeyCode(code)|;
      Key(true, KeyHeadLen(long, short), KeyHead(id, length - 2, long, short) + KeyCode(code))
  }

  /** A key's code is at most 20 bytes. */
  predicate KeyFits(d: KeyDef) {
    d.NoKey? || |KeyCode(d.code)| <= MAX_RET_CODE
  }

  /** A key's message is at most 50 bytes, and its length byte is its length without the first two. */
  lemma KeyLength(d: KeyDef, id: nat)
    requires KeyFits(d)
    ensures |KeyImage(d, id).retstr| <= 50
    ensures d.KeyMade? ==> 0 <= KeyImage(d, id).retstr[1] == |KeyImage(d, id).retstr| - 2 < 256
  {
  }

  /** KEY ... IS: the header with the two names, each cut to its room. */
  method OpenKey(key: Key, id: nat, long: Bytes, short: Bytes) returns (key': Key)
    requires key == KeyImage(NoKey, id)
    ensures key' == KeyImage(KeyMaking(long, short, []), id)
  {
    var full, name := long, short;
    if |full| > 18 { full := full[..18]; }
    if |name| > 7 { name := name[..7]; }
    var retstr := [128, 0, id] + full;
    retstr := retstr + [255];
    retstr := retstr + name;
    retstr := retstr + [255];
    key' := key.(retstr := retstr, initlen := |retstr|);
  }

  /** A command in a key counts only if its bytes fit. */
  function KeyGrown(d: KeyDef, i: Instr): KeyDef
    requires d.KeyMaking?
  {
    if |KeyCode(d.code)| + |Words(i)| <= MAX_RET_CODE then KeyMaking(d.long, d.short, d.code + [i]) else d
  }

  method AddKeyCode(key: Key, id: nat, ghost d: KeyDef, i: Instr) returns (key': Key)
    requires d.KeyMaking? && key == KeyImage(d, id)
    ensures key' == KeyImage(KeyGrown(d, i), id)
  {
    key' := key;
    if |key.retstr| + |Words(i)| - key.initlen <= MAX_RET_CODE {
      key' := key.(retstr := key.retstr + Words(i));
      CodeSnoc(d.code, i);
      Associative(KeyHead(id, 0, d.long, d.short), KeyCode(d.code), Words(i));
    }
  }

  /** ENDKEY: the length, which fits its byte. */
  method CloseKey(key: Key, id: nat, ghost d: KeyDef) returns (key': Key)
    requires d.KeyMaking? && key == KeyImage(d, id) && KeyFits(d)
    ensures key' == KeyImage(KeyMade(d.long, d.short, d.code), id)
  {
    key' := key.(defined := true);
    key' := key'.(retstr := key'.retstr[1 := Low(|key'.retstr| - 2)]);
    UpdateLeft(KeyHead(id, 0, d.long, d.short), KeyCode(d.code), 1, |key.retstr| - 2);
  }

  // ---- Subroutines ----

  /** ifdata is where the block of the last IF clause starts. */
  datatype Sub = Sub(defined: bool, data: Bytes, inscount: nat, ifinscount: nat, ifdata: Option<nat>)

  /** A subroutine only referred to so far, one with its header written, and one that was closed.  `clause`
      is the instruction that opened the last IF clause, `inside` the number counted in it. */
  datatype SubDef =
    | NoSub
    | SubMaking(defined: bool, code: seq<Instr>, clause: Option<nat>, inside: nat)
    | SubMade(code: seq<Instr>, clause: Option<nat>, inside: nat)

  function SubHead(id: nat, length: Byte, count: Byte): Bytes {
    if id == 0 then [130, length, 0] else [130, length, 0, 9, id, count, 255]
  }

  function HeadLen(id: nat): nat {
    if id == 0 then 3 else 7
  }

  predicate ClauseOk(code: seq<Instr>, clause: Option<nat>) {
    clause.Some? ==> clause.value < |code| && code[clause.value].IfEvent?
  }

  function IfPlace(id: nat, code: seq<Instr>, clause: Option<nat>): Option<nat> {
    if clause.Some? && clause.value <= |code| then Some(HeadLen(id) + |SubCode(code, clause.value)|) else None
  }

  predicate SubOk(d: SubDef) {
    d.NoSub? || ClauseOk(d.code, d.clause)
  }

  /** The header and then one block for each instruction; a closed subroutine has its length and, but for
      main, its number of instructions in the header. */
  function SubImage(d: SubDef, id: nat): Sub {
    match d
    case NoSub => Sub(false, [], 0, 0, None)
    case SubMaking(defined, code, clause, inside) =>
      Sub(defined, SubHead(id, 0, 0) + SubCode(code, |code|), |code|, inside, IfPlace(id, code, clause))
    case SubMade(code, clause, inside) =>
      var length := HeadLen(id) + |SubCode(code, |code|)|;
      var data := SubHead(id, Low(length - 2), Low(|code|)) + SubCode(code, |code|);
      Sub(true, data, |code|, inside, IfPlace(id, code, clause))
  }

  /** Only the header has been written. */
  const ANNOUNCED := SubMaking(false, [], None, 0)

  /** SUB: the header, written over a blank buffer or over an earlier header. */
  method OpenSub(sub: Sub, id: nat) returns (sub': Sub)
    requires sub == SubImage(NoSub, id) || sub == SubImage(ANNOUNCED, id)
    ensures sub' == SubImage(ANNOUNCED, id)
  {
    sub' := sub.(data := [130, 0, 0]);
    if id > 0 { sub' := sub'.(data := sub'.data + [9, id, 0, 255]); }
  }

  function Room(id: nat): nat {
    if id > 0 then MAX_SUB_LEN else MAX_MAIN_LEN
  }

  /** Whether a command's block still has room in a subroutine. */
  predicate SubHasRoom(d: SubDef, id: nat, i: Instr)
    requires d.SubMaking?
  {
    HeadLen(id) + |SubCode(d.code, |d.code|)| + |Words(i)| + 1 <= Room(id)
  }

  /** A definition with an instruction more, counted in the open IF clause or not. */
  function Appended(d: SubDef, i: Instr, counted: bool): SubDef
    requires d.SubMaking?
  {
    SubMaking(d.defined, d.code + [i], d.clause, if counted then d.inside + 1 else d.inside)
  }

  lemma SamePlace(code: seq<Instr>, code': seq<Instr>, k: nat)
    requires k <= |code| && k <= |code'| && code[..k] == code'[..k]
    ensures SubCode(code, k) == SubCode(code', k)
  {
    forall j | 0 <= j < k ensures Blocks(code)[j] == Blocks(code')[j] {
      assert code[..k][j] == code'[..k][j];
    }
    JoinPrefix(Blocks(code), Blocks(code'), k);
  }

  /** A block more and the counters moved is the image of the definition with an instruction more. */
  lemma AppendedImage(d: SubDef, id: nat, i: Instr, counted: bool)
    requires d.SubMaking? && SubOk(d)
    ensures SubOk(Appended(d, i, counted))
    ensures var sub := SubImage(d, id);
      SubImage(Appended(d, i, counted), id)
      == sub.(data := sub.data + Block(i), inscount := sub.inscount + 1,
              ifinscount := if counted then d.inside + 1 else d.inside)
  {
    CodeSnoc(d.code, i);
    Associative(SubHead(id, 0, 0), SubCode(d.code, |d.code|), Block(i));
    if d.clause.Some? {
      assert d.code[..d.clause.value] == (d.code + [i])[..d.clause.value];
      SamePlace(d.code, d.code + [i], d.clause.value);
    }
  }

  /** A command in a subroutine: a block more, if it fits. */
  method AddInstr(sub: Sub, id: nat, ghost d: SubDef, i: Instr, counted: bool) returns (sub': Sub)
    requires d.SubMaking? && SubOk(d) && sub == SubImage(d, id)
    ensures SubHasRoom(d, id, i) ==> SubOk(Appended(d, i, counted)) && sub' == SubImage(Appended(d, i, counted), id)
    ensures !SubHasRoom(d, id, i) ==> sub' == sub
  {
    sub' := sub;
    if |sub.data| + |Words(i)| + 1 <= Room(id) {
      AppendedImage(d, id, i, counted);
      Associative(sub.data, Words(i), [255]);
      sub' := sub'.(data := sub'.data + Words(i));
      sub' := sub'.(data := sub'.data + [255]);
      sub' := sub'.(inscount := sub'.inscount + 1);
      if counted { sub' := sub'.(ifinscount := sub'.ifinscount + 1); }
    }
  }

  /** The definition after IFEVENT: a clause with nothing in it yet, whatever room is left. */
  function ClauseOpened(d: SubDef, event: Byte): SubDef
    requires d.SubMaking?
  {
    SubMaking(d.defined, d.code + [IfEvent(event, 0)], Some(|d.code|), 0)
  }

  /** IFEVENT ... THEN: a block whose count is filled in when the clause is closed. */
  method OpenIf(sub: Sub, id: nat, ghost d: SubDef, event: Byte) returns (sub': Sub)
    requires d.SubMaking? && SubOk(d) && sub == SubImage(d, id)
    ensures SubOk(ClauseOpened(d, event)) && sub' == SubImage(ClauseOpened(d, event), id)
  {
    sub' := sub.(ifinscount := 0, ifdata := Some(|sub.data|));
    sub' := sub'.(data := sub'.data + [1, event, 0, 255]);
    sub' := sub'.(inscount := sub'.inscount + 1);
    ghost var i := IfEvent(event, 0);
    assert Block(i) == [1, event, 0, 255];
    AppendedImage(d, id, i, false);
    assert d.code[..|d.code|] == (d.code + [i])[..|d.code|];
    SamePlace(d.code, d.code + [i], |d.code|);
  }

  /** A GOTO in an IF clause: a branch on the clause's own event. */
  function Branch(d: SubDef, target: Byte): Instr
    requires d.SubMaking? && SubOk(d) && d.clause.Some?
  {
    SubRef([8, d.code[d.clause.value].event], target, false, [])
  }

  /** The event a clause was opened with is read back from the second byte of its block. */
  lemma ClauseEvent(d: SubDef, id: nat)
    requires d.SubMaking? && SubOk(d) && d.clause.Some?
    ensures var (data, at) := (SubImage(d, id).data, SubImage(d, id).ifdata.value + 1);
            at < |data| && data[at] == d.code[d.clause.value].event
  {
    IfEventAt(d.code, d.clause.value);
    AtRight(SubHead(id, 0, 0), SubCode(d.code, |d.code|), |SubCode(d.code, d.clause.value)| + 1);
  }

  lemma AtRight<T>(a: seq<T>, b: seq<T>, k: nat)
    requires k < |b|
    ensures (a + b)[|a| + k] == b[k]
  {
  }

  method AddGoto(sub: Sub, id: nat, ghost d: SubDef, target: Byte) returns (sub': Sub)
    requires d.SubMaking? && SubOk(d) && d.clause.Some? && sub == SubImage(d, id)
    ensures SubOk(Appended(d, Branch(d, target), true)) && sub' == SubImage(Appended(d, Branch(d, target), true), id)
  {
    ghost var i := Branch(d, target);
    ClauseEvent(d, id);
    var event := sub.data[sub.ifdata.value + 1];
    sub' := sub.(data := sub.data + [8, event, target, 255]);
    sub' := sub'.(inscount := sub'.inscount + 1, ifinscount := sub'.ifinscount + 1);
    assert Block(i) == [8, event, target, 255];
    AppendedImage(d, id, i, true);
  }

  /** The definition after ENDIF: the clause has its count, and the subroutine passes for defined. */
  function ClauseClosed(d: SubDef): SubDef
    requires d.SubMaking? && SubOk(d) && d.clause.Some?
  {
    var k := d.clause.value;
    SubMaking(true, d.code[k := IfEvent(d.code[k].event, Low(d.inside))], d.clause, d.inside)
  }

  /** Closing a clause moves no block before it. */
  lemma ClosedPlace(d: SubDef)
    requires d.SubMaking? && SubOk(d) && d.clause.Some?
    ensures SubOk(ClauseClosed(d)) && SubCode(ClauseClosed(d).code, d.clause.value) == SubCode(d.code, d.clause.value)
  {
    var k := d.clause.value;
    assert d.code[..k] == ClauseClosed(d).code[..k];
    SamePlace(d.code, ClauseClosed(d).code, k);
  }

  /** The count goes into the code behind the header, at the third byte of the clause's block. */
  lemma ClosedData(d: SubDef, id: nat)
    requires d.SubMaking? && SubOk(d) && d.clause.Some?
    ensures var (data, code, at) := (SubImage(d, id).data, ClauseClosed(d).code, SubImage(d, id).ifdata.value + 2);
            at < |data| && SubHead(id, 0, 0) + SubCode(code, |code|) == data[at := Low(d.inside)]
  {
    var k := d.clause.value;
    PatchIf(d.code, k, Low(d.inside));
    UpdateRight(SubHead(id, 0, 0), SubCode(d.code, |d.code|), |SubCode(d.code, k)| + 2, Low(d.inside));
  }

  /** ENDIF: fills the count in without moving or changing another byte. */
  method CloseIf(sub: Sub, id: nat, ghost d: SubDef) returns (sub': Sub)
    requires d.SubMaking? && SubOk(d) && d.clause.Some? && sub == SubImage(d, id)
    ensures SubOk(ClauseClosed(d)) && sub' == SubImage(ClauseClosed(d), id)
  {
    ClosedPlace(d);
    ClosedData(d, id);
    sub' := sub.(defined := true);
    sub' := sub'.(data := sub'.data[sub.ifdata.value + 2 := Low(sub.ifinscount)]);
  }

  /** The length and the count go into the header, before the code. */
  lemma HeadPatched(id: nat, length: Byte, count: Byte, code: Bytes)
    ensures (SubHead(id, 0, 0) + code)[1 := length] == SubHead(id, length, 0) + code
    ensures id > 0 ==> (SubHead(id, length, 0) + code)[5 := count] == SubHead(id, length, count) + code
  {
  }

  /** ENDSUB: fills in the length and, but for main, the number of instructions. */
  method CloseSub(sub: Sub, id: nat, ghost d: SubDef) returns (sub': Sub)
    requires d.SubMaking? && SubOk(d) && sub == SubImage(d, id)
    ensures sub' == SubImage(SubMade(d.code, d.clause, d.inside), id)
  {
    HeadPatched(id, Low(|sub.data| - 2), Low(|d.code|), SubCode(d.code, |d.code|));
    sub' := sub.(defined := true);
    sub' := sub'.(data := sub'.data[1 := Low(|sub'.data| - 2)]);
    if id > 0 { sub' := sub'.(data := sub'.data[5 := Low(sub'.inscount)]); }
  }

  // ---- Displays ----

  /** The qualifiers after the columns, read until the line ends or one is no good. */
  datatype Qualifiers = Qualifiers(good: bool, justify: nat, wrap: bool)

  /** A display without text, and one with one column or two, completed if its qualifiers were good. */
  datatype DisplayDef = NoDisplay | Columns(one: Bytes, two: Option<Bytes>, q: Qualifiers)

  function DisplayText(one: Bytes, two: Option<Bytes>): Bytes {
    Cut(one, 20) + [255] + (if two.Some? then Cut(two.value, 20) else [])
  }

  function DisplayHead(q: Qualifiers, id: nat, length: Byte): Bytes {
    if q.good then [129, length, 64 * (q.justify % 4) + id, if q.wrap then 128 else 0, 255] else [0, 0, 0, 0, 0]
  }

  function DisplayImage(d: DisplayDef, id: nat): Bytes {
    match d
    case NoDisplay => []
    case Columns(one, two, q) => DisplayHead(q, id, |DisplayText(one, two)| + 3) + DisplayText(one, two)
  }

  /** A display is at most 46 bytes, and its length byte, once there, is its length without the first two. */
  lemma DisplayLength(d: DisplayDef, id: nat)
    ensures |DisplayImage(d, id)| <= 46
    ensures d.Columns? && d.q.good ==> 0 <= DisplayImage(d, id)[1] == |DisplayImage(d, id)| - 2 < 256
  {
  }

  /** DISPLAY ... IS: the columns, each cut to its room, and then the header if the qualifiers are good. */
  method FillDisplay(id: nat, one: Bytes, two: Option<Bytes>, q: Qualifiers) returns (data: Bytes)
    ensures data == DisplayImage(Columns(one, two, q), id)
  {
    var column := if |one| > 20 then one[..20] else one;
    data := [0, 0, 0, 0, 0] + column;
    data := data + [255];
    Associative([0, 0, 0, 0, 0], column, [255]);
    var second := [];
    if two.Some? { second := if |two.value| > 20 then two.value[..20] else two.value; }
    data := data + second;
    Associative([0, 0, 0, 0, 0], column + [255], second);
    assert DisplayText(one, two) == column + [255] + second;
    Dropped([0, 0, 0, 0, 0], DisplayText(one, two));
    if q.good {
      data := [129, |data| - 2, 64 * (q.justify % 4) + id, if q.wrap then 128 else 0, 255] + data[5..];
    }
  }

  lemma Dropped<T>(a: seq<T>, b: seq<T>)
    ensures (a + b)[|a|..] == b
  {
  }
}

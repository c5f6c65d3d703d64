/** ADSIProg: the byte code of soft keys and subroutines.

    A key or a subroutine stands for a list of instructions.  This module says which bytes an instruction
    list is, and that the counts and lengths the compiler fills in afterwards land where they belong. */
module AdsiCode {
  import opened Common

  /** A byte as the number it holds; Low says what of a larger number it keeps. */
  type Byte = int

  type Bytes = seq<Byte>

  function Low(n: int): Byte {
    n % 256
  }

  /** One instruction.  ShowKeys and SubRef name keys and subroutines by number; IfEvent opens an IF clause
      and carries the number of instructions in it. */
  datatype Instr =
    | Plain(bytes: Bytes)
    | ShowKeys(op: Byte, head: Byte, ids: seq<Byte>)
    | SubRef(before: Bytes, sub: Byte, marked: bool, after: Bytes)
    | IfEvent(event: Byte, count: Byte)

  function Words(i: Instr): Bytes {
    match i
    case Plain(bytes) => bytes
    case ShowKeys(op, head, ids) => [op, head] + ids
    case SubRef(before, sub, marked, after) => before + [if marked && sub < 128 then sub + 128 else sub] + after
    case IfEvent(event, count) => [1, event, count]
  }

  /** One instruction of a subroutine, closed by 0xff. */
  function Block(i: Instr): Bytes {
    Words(i) + [255]
  }

  function AllWords(code: seq<Instr>): seq<Bytes> {
    seq(|code|, i requires 0 <= i < |code| => Words(code[i]))
  }

  function Blocks(code: seq<Instr>): seq<Bytes> {
    seq(|code|, i requires 0 <= i < |code| => Block(code[i]))
  }

  /** The first n parts end to end. */
  function Join<T>(parts: seq<seq<T>>, n: nat): seq<T>
    requires n <= |parts|
  {
    if n == 0 then [] else Join(parts, n - 1) + parts[n - 1]
  }

  /** The code of a key: its instructions end to end. */
  function KeyCode(code: seq<Instr>): Bytes {
    Join(AllWords(code), |code|)
  }

  /** The code of the first n instructions of a subroutine: their blocks end to end. */
  function SubCode(code: seq<Instr>, n: nat): Bytes
    requires n <= |code|
  {
    Join(Blocks(code), n)
  }

  // ---- Appending and back-patching ----

  lemma {:induction false} JoinPrefix<T>(parts: seq<seq<T>>, parts': seq<seq<T>>, n: nat)
    requires n <= |parts| && n <= |parts'| && parts[..n] == parts'[..n]
    ensures Join(parts, n) == Join(parts', n)
  {
    if n == 0 {
    } else {
      assert parts[n - 1] == parts[..n][n - 1] && parts'[n - 1] == parts'[..n][n - 1];
      assert parts[..n - 1] == parts[..n][..n - 1] && parts'[..n - 1] == parts'[..n][..n - 1];
      JoinPrefix(parts, parts', n - 1);
    }
  }

  lemma JoinSnoc<T>(parts: seq<seq<T>>, part: seq<T>)
    ensures Join(parts + [part], |parts| + 1) == Join(parts, |parts|) + part
  {
    JoinPrefix(parts, parts + [part], |parts|);
  }

  /** An instruction more is its bytes more. */
  lemma CodeSnoc(code: seq<Instr>, i: Instr)
    ensures KeyCode(code + [i]) == KeyCode(code) + Words(i)
    ensures SubCode(code + [i], |code| + 1) == SubCode(code, |code|) + Block(i)
  {
    assert AllWords(code + [i]) == AllWords(code) + [Words(i)];
    assert Blocks(code + [i]) == Blocks(code) + [Block(i)];
    JoinSnoc(AllWords(code), Words(i));
    JoinSnoc(Blocks(code), Block(i));
  }

  lemma UpdateLeft<T>(a: seq<T>, b: seq<T>, k: nat, x: T)
    requires k < |a|
    ensures (a + b)[k := x] == a[k := x] + b
  {
  }

  lemma UpdateRight<T>(a: seq<T>, b: seq<T>, k: nat, x: T)
    requires k < |b|
    ensures (a + b)[|a| + k := x] == a + b[k := x]
  {
  }

  /** Element j of part k is at the place where the parts before it end, and changing it there is changing
      it in the part. */
  lemma {:induction false} JoinPatch<T>(parts: seq<seq<T>>, parts': seq<seq<T>>, k: nat, j: nat, x: T, n: nat)
    requires k < n <= |parts| && j < |parts[k]| && parts' == parts[k := parts[k][j := x]]
    ensures |Join(parts, k)| + |parts[k]| <= |Join(parts, n)|
    ensures Join(parts, n)[|Join(parts, k)| + j] == parts[k][j]
    ensures Join(parts', n) == Join(parts, n)[|Join(parts, k)| + j := x]
  {
    if k + 1 < n {
      JoinPatch(parts, parts', k, j, x, n - 1);
      UpdateLeft(Join(parts, n - 1), parts[n - 1], |Join(parts, k)| + j, x);
    } else {
      assert parts'[..k] == parts[..k];
      JoinPrefix(parts, parts', k);
      UpdateRight(Join(parts, k), parts[k], j, x);
    }
  }

  lemma IfBlock(event: Byte, count: Byte, count': Byte)
    ensures |Block(IfEvent(event, count))| == 4 && Block(IfEvent(event, count))[1] == event
    ensures Block(IfEvent(event, count))[2 := count'] == Block(IfEvent(event, count'))
  {
  }

  /** The event of an IF clause is in its block, where the code before it ends. */
  lemma IfEventAt(code: seq<Instr>, k: nat)
    requires k < |code| && code[k].IfEvent?
    ensures |SubCode(code, k)| + 4 <= |SubCode(code, |code|)|
    ensures SubCode(code, |code|)[|SubCode(code, k)| + 1] == code[k].event
  {
    var parts := Blocks(code);
    IfBlock(code[k].event, code[k].count, 0);
    assert parts[k] == Block(code[k]);
    JoinPatch(parts, parts[k := parts[k][1 := code[k].event]], k, 1, code[k].event, |code|);
  }

  /** Writing the count into an IF clause's block is giving its instruction that count: no other byte moves
      or changes. */
  lemma PatchIf(code: seq<Instr>, k: nat, count: Byte)
    requires k < |code| && code[k].IfEvent?
    ensures |SubCode(code, k)| + 2 < |SubCode(code, |code|)|
    ensures SubCode(code[k := IfEvent(code[k].event, count)], |code|)
         == SubCode(code, |code|)[|SubCode(code, k)| + 2 := count]
  {
    var parts := Blocks(code);
    IfBlock(code[k].event, code[k].count, count);
    PatchBlocks(code, k, count);
    JoinPatch(parts, parts[k := parts[k][2 := count]], k, 2, count, |code|);
  }

  lemma PatchBlocks(code: seq<Instr>, k: nat, count: Byte)
    requires k < |code| && code[k].IfEvent?
    ensures |Blocks(code)[k]| == 4
    ensures Blocks(code[k := IfEvent(code[k].event, count)]) == Blocks(code)[k := Blocks(code)[k][2 := count]]
  {
    IfBlock(code[k].event, code[k].count, count);
  }

  // ---- References ----

  /** Every key and subroutine an instruction names is in the tables. */
  predicate RefsOk(i: Instr, keys: nat, subs: nat) {
    match i
    case ShowKeys(_, _, ids) => forall k :: 0 <= k < |ids| ==> 2 <= ids[k] < 2 + keys
    case SubRef(_, sub, _, _) => 0 <= sub < subs
    case _ => true
  }

  ghost predicate AllRefsOk(code: seq<Instr>, keys: nat, subs: nat) {
    forall k :: 0 <= k < |code| ==> RefsOk(code[k], keys, subs)
  }
}

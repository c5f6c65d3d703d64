/** MeetMe: the participants of one conference, a doubly linked list changed in place.

    A participant's record is a cell of the store `mem`, found through its address; the prevuser and
    nextuser fields are addresses too, so cells can alias and links can dangle, as they can in the code. */
module MeetMeUsers {
  import opened Common

  type Ptr = nat

  /** A participant's record, with its thread's own copy of the marked option. */
  datatype User = User(
    userNo: nat, prev: Option<Ptr>, next: Option<Ptr>, marked: bool, admin: bool, muted: bool, kicked: bool)

  type Store = map<Ptr, User>

  /** Cell number i of the list points at its neighbours. */
  ghost predicate LinkedAt(mem: Store, list: seq<Ptr>, i: nat)
    requires i < |list|
  {
    && list[i] in mem
    && mem[list[i]].prev == (if i == 0 then None else Some(list[i - 1]))
    && mem[list[i]].next == (if i == |list| - 1 then None else Some(list[i + 1]))
  }

  ghost predicate Chain(mem: Store, list: seq<Ptr>) {
    forall i :: 0 <= i < |list| ==> LinkedAt(mem, list, i)
  }

  ghost predicate Stored(mem: Store, list: seq<Ptr>) {
    forall i :: 0 <= i < |list| ==> list[i] in mem
  }

  /** The numbers go up along the list, so no user is on it twice. */
  ghost predicate Ascending(mem: Store, list: seq<Ptr>)
    requires Stored(mem, list)
  {
    && (forall i :: 0 <= i < |list| ==> mem[list[i]].userNo > 0)
    && (forall i, j :: 0 <= i < j < |list| ==> mem[list[i]].userNo < mem[list[j]].userNo)
  }

  ghost predicate ListOk(mem: Store, list: seq<Ptr>) {
    Stored(mem, list) && Chain(mem, list) && Ascending(mem, list)
  }

  function HeadOf(list: seq<Ptr>): Option<Ptr> {
    if list == [] then None else Some(list[0])
  }

  function TailOf(list: seq<Ptr>): Option<Ptr> {
    if list == [] then None else Some(list[|list| - 1])
  }

  /** Changing what is not a link or a number leaves the list as it was. */
  ghost predicate SameLinks(mem: Store, mem': Store, list: seq<Ptr>) {
    forall i :: 0 <= i < |list| && list[i] in mem ==>
      && list[i] in mem' && mem'[list[i]].prev == mem[list[i]].prev && mem'[list[i]].next == mem[list[i]].next
      && mem'[list[i]].userNo == mem[list[i]].userNo
  }

  lemma SameLinksKeep(mem: Store, mem': Store, list: seq<Ptr>)
    requires ListOk(mem, list) && SameLinks(mem, mem', list)
    ensures ListOk(mem', list)
  {
    forall i | 0 <= i < |list| ensures LinkedAt(mem', list, i) {
      assert LinkedAt(mem, list, i);
    }
  }

  // ---- Joining ----

  /** The store with a new cell hung on to the end. */
  function Appended(mem: Store, last: Option<Ptr>, u: Ptr): Store
    requires u in mem && (last.Some? ==> last.value in mem)
  {
    match last
    case None => mem[u := mem[u].(userNo := 1, prev := None, next := None)]
    case Some(l) =>
      mem[u := mem[u].(userNo := mem[l].userNo + 1, prev := Some(l), next := None)]
         [l := mem[l].(next := Some(u))]
  }

  lemma AppendKeeps(mem: Store, list: seq<Ptr>, u: Ptr)
    requires ListOk(mem, list) && u in mem && u !in list
    ensures TailOf(list).Some? ==> TailOf(list).value in mem && mem[TailOf(list).value].next.None?
    ensures ListOk(Appended(mem, TailOf(list), u), list + [u])
  {
    var n, list' := |list|, list + [u];
    if n > 0 {
      assert LinkedAt(mem, list, n - 1);
    }
    var mem' := Appended(mem, TailOf(list), u);
    forall i | 0 <= i < |list'| ensures LinkedAt(mem', list', i) {
      if i < n {
        assert LinkedAt(mem, list, i);
        if i < n - 1 { assert mem[list[i]].userNo < mem[list[n - 1]].userNo; }
      }
    }
  }

  // ---- Leaving ----

  /** The store and the ends of the list after a cell is unlinked, and whether the code found a link
      missing that should have been there. */
  datatype Unlinking = Unlinking(mem: Store, first: Option<Ptr>, last: Option<Ptr>, broken: bool)

  function Unlinked(mem: Store, first: Option<Ptr>, last: Option<Ptr>, u: Ptr): Unlinking
    requires u in mem
  {
    var prev, next := mem[u].prev, mem[u].next;
    if first == Some(u) then
      Unlinking(SetPrev(mem, next, None), next, if next.Some? then last else None, false)
    else if last == Some(u) then
      Unlinking(SetNext(mem, prev, None), first, prev, prev.None?)
    else
      Unlinking(SetNext(SetPrev(mem, next, prev), prev, next), first, last, next.None? || prev.None?)
  }

  function SetPrev(mem: Store, p: Option<Ptr>, to: Option<Ptr>): Store {
    if p.Some? && p.value in mem then mem[p.value := mem[p.value].(prev := to)] else mem
  }

  function SetNext(mem: Store, p: Option<Ptr>, to: Option<Ptr>): Store {
    if p.Some? && p.value in mem then mem[p.value := mem[p.value].(next := to)] else mem
  }

  function Without<T>(list: seq<T>, k: nat): seq<T>
    requires k < |list|
  {
    list[..k] + list[k + 1..]
  }

  /** No cell is on the list twice. */
  lemma OnListOnce(mem: Store, list: seq<Ptr>, i: nat, j: nat)
    requires ListOk(mem, list) && i < |list| && j < |list|
    ensures list[i] == list[j] <==> i == j
  {
  }

  /** What unlinking cell k does to cell i: its neighbours point past it, the others stay. */
  lemma UnlinkCell(mem: Store, list: seq<Ptr>, k: nat, i: nat)
    requires ListOk(mem, list) && k < |list| && i < |list| && i != k
    ensures var mem' := Unlinked(mem, HeadOf(list), TailOf(list), list[k]).mem;
            && list[i] in mem'
            && mem'[list[i]] == mem[list[i]].(prev := if i == k + 1 then mem[list[k]].prev else mem[list[i]].prev,
                                              next := if i == k - 1 then mem[list[k]].next else mem[list[i]].next)
  {
    var n := |list|;
    assert LinkedAt(mem, list, k);
    OnListOnce(mem, list, 0, k);
    OnListOnce(mem, list, n - 1, k);
    if k + 1 < n { OnListOnce(mem, list, i, k + 1); }
    if k > 0 { OnListOnce(mem, list, i, k - 1); }
  }

  lemma UnlinkEnds(mem: Store, list: seq<Ptr>, k: nat)
    requires ListOk(mem, list) && k < |list| && |list| > 1
    ensures var (r, list') := (Unlinked(mem, HeadOf(list), TailOf(list), list[k]), Without(list, k));
            !r.broken && r.first == HeadOf(list') && r.last == TailOf(list')
  {
    assert LinkedAt(mem, list, k);
    OnListOnce(mem, list, 0, k);
    OnListOnce(mem, list, |list| - 1, k);
  }

  /** Where the cells left in the list were before. */
  function Was(k: nat, i: nat): nat {
    if i < k then i else i + 1
  }

  lemma UnlinkAt(mem: Store, list: seq<Ptr>, k: nat, i: nat)
    requires ListOk(mem, list) && k < |list| && i < |list| - 1
    ensures var (mem', list') := (Unlinked(mem, HeadOf(list), TailOf(list), list[k]).mem, Without(list, k));
            && list'[i] == list[Was(k, i)] && list'[i] in mem && LinkedAt(mem', list', i)
            && mem'[list'[i]].userNo == mem[list'[i]].userNo
  {
    var at := Was(k, i);
    assert LinkedAt(mem, list, at) && LinkedAt(mem, list, k);
    UnlinkCell(mem, list, k, at);
  }

  /** Unlinking takes exactly its cell out of the list, and finds every link it needs. */
  lemma UnlinkKeeps(mem: Store, list: seq<Ptr>, k: nat)
    requires ListOk(mem, list) && k < |list| && |list| > 1
    ensures var (r, list') := (Unlinked(mem, HeadOf(list), TailOf(list), list[k]), Without(list, k));
            && !r.broken && r.first == HeadOf(list') && r.last == TailOf(list')
            && ListOk(r.mem, list')
  {
    var (mem', list') := (Unlinked(mem, HeadOf(list), TailOf(list), list[k]).mem, Without(list, k));
    UnlinkEnds(mem, list, k);
    forall i | 0 <= i < |list'|
      ensures LinkedAt(mem', list', i) && list'[i] == list[Was(k, i)] && mem'[list'[i]].userNo == mem[list'[i]].userNo
    {
      UnlinkAt(mem, list, k, i);
    }
  }

  // ---- Marked users ----

  /** How many users on the list carry the marked flag. */
  function Marked(mem: Store, list: seq<Ptr>): nat {
    if list == [] then 0
    else (if list[0] in mem && mem[list[0]].marked then 1 else 0) + Marked(mem, list[1..])
  }

  lemma {:induction false} MarkedConcat(mem: Store, a: seq<Ptr>, b: seq<Ptr>)
    ensures Marked(mem, a + b) == Marked(mem, a) + Marked(mem, b)
  {
    if a == [] {
      assert a + b == b;
    } else {
      MarkedConcat(mem, a[1..], b);
      assert (a + b)[1..] == a[1..] + b;
    }
  }

  lemma {:induction false} MarkedSame(mem: Store, mem': Store, list: seq<Ptr>)
    requires Stored(mem, list) && Stored(mem', list)
    requires forall i :: 0 <= i < |list| ==> mem'[list[i]].marked == mem[list[i]].marked
    ensures Marked(mem', list) == Marked(mem, list)
  {
    if list == [] {
    } else {
      MarkedSame(mem, mem', list[1..]);
    }
  }

  /** The count without the k-th user. */
  lemma MarkedWithout(mem: Store, list: seq<Ptr>, k: nat)
    requires k < |list| && list[k] in mem
    ensures Marked(mem, list) == Marked(mem, Without(list, k)) + if mem[list[k]].marked then 1 else 0
  {
    assert list == list[..k] + ([list[k]] + list[k + 1..]);
    MarkedConcat(mem, list[..k], [list[k]] + list[k + 1..]);
    MarkedConcat(mem, [list[k]], list[k + 1..]);
    assert [list[k]][1..] == [];
    MarkedConcat(mem, list[..k], list[k + 1..]);
  }

  // ---- Commands of MeetMeAdmin ----

  /** What a command does to one user; only some commands look for a user by number. */
  function Commanded(cmd: char, user: User, named: bool, isLast: bool): User {
    match cmd
    case 'K' => user.(kicked := true)
    case 'N' => if user.admin then user else user.(muted := true)
    case 'n' => user.(muted := false)
    case 'M' => if named then user.(muted := true) else user
    case 'm' => if named then user.(muted := false) else user
    case 'k' => if named then user.(kicked := true) else user
    case 'e' => if isLast && !user.admin then user.(kicked := true) else user
    case _ => user
  }

  // ---- The roster: what the conference is to its users ----

  /** A user without its links. */
  function Person(u: User): User {
    u.(prev := None, next := None)
  }

  ghost function People(mem: Store, list: seq<Ptr>): seq<User>
    requires Stored(mem, list)
  {
    seq(|list|, i requires 0 <= i < |list| => Person(mem[list[i]]))
  }

  /** The participants in order of joining, and the lock. */
  datatype Room = Room(people: seq<User>, locked: bool)

  /** What happens to a conference: someone comes, the k-th participant leaves or presses menu key 5, or
      MeetMeAdmin is called. */
  datatype Event =
    | Joins(admin: bool, marked: bool)
    | Leaves(k: nat)
    | PressesFive(k: nat)
    | Commands(cmd: char, ident: Option<string>)

  function NextNo(people: seq<User>): nat {
    if people == [] then 1 else people[|people| - 1].userNo + 1
  }

  function Told(people: seq<User>, cmd: char, ident: Option<string>): seq<User> {
    seq(|people|, i requires 0 <= i < |people| =>
      Commanded(cmd, people[i], Some(Decimal(people[i].userNo)) == ident, i == |people| - 1))
  }

  function Lock(locked: bool, cmd: char): bool {
    if cmd == 'L' then true else if cmd == 'l' then false else locked
  }

  /** The k-th participant is there and may use the admin menu. */
  predicate MayPress(r: Room, k: nat) {
    k < |r.people| && r.people[k].admin
  }

  function Stepped(r: Room, e: Event): Room {
    match e
    case Joins(admin, marked) =>
      if r.locked then r
      else r.(people := r.people + [User(NextNo(r.people), None, None, marked, admin, false, false)])
    case Leaves(k) => if k < |r.people| then r.(people := Without(r.people, k)) else r
    case PressesFive(k) =>
      if MayPress(r, k) then r.(people := r.people[k := r.people[k].(marked := true)]) else r
    case Commands(cmd, ident) => Room(Told(r.people, cmd, ident), Lock(r.locked, cmd))
  }

  /** The last participant leaves. */
  predicate Ends(r: Room, e: Event) {
    e.Leaves? && e.k == 0 && |r.people| == 1
  }

  /** Key 5 is pressed by an admin already marked. */
  predicate Spoils(r: Room, e: Event) {
    e.PressesFive? && MayPress(r, e.k) && r.people[e.k].marked
  }

  /** The roster after the first n events. */
  function RoomAt(r: Room, events: seq<Event>, n: nat): Room
    requires n <= |events|
  {
    if n == 0 then r else Stepped(RoomAt(r, events, n - 1), events[n - 1])
  }

  predicate EndsAt(r: Room, events: seq<Event>, i: nat)
    requires i < |events|
  {
    Ends(RoomAt(r, events, i), events[i])
  }

  predicate SpoilsAt(r: Room, events: seq<Event>, i: nat)
    requires i < |events|
  {
    Spoils(RoomAt(r, events, i), events[i])
  }

  /** None of the first n events ends the conference. */
  predicate Lasts(r: Room, events: seq<Event>, n: nat)
    requires n <= |events|
  {
    n == 0 || (Lasts(r, events, n - 1) && !EndsAt(r, events, n - 1))
  }

  /** How many of the first n events spoil the count. */
  function Spoiled(r: Room, events: seq<Event>, n: nat): nat
    requires n <= |events|
  {
    if n == 0 then 0 else Spoiled(r, events, n - 1) + if SpoilsAt(r, events, n - 1) then 1 else 0
  }

  lemma {:induction false} SpoiledIff(r: Room, events: seq<Event>, n: nat)
    requires n <= |events|
    ensures Spoiled(r, events, n) == 0 <==> forall i :: 0 <= i < n ==> !SpoilsAt(r, events, i)
  {
    if n == 0 {
    } else {
      SpoiledIff(r, events, n - 1);
    }
  }

  /** One press is enough: a marked admin joins, presses key 5, and the count is off. */
  lemma CountSpoiled()
    ensures Spoiled(Room([], false), [Joins(true, true), PressesFive(0)], 2) == 1
  {
    var (r, events) := (Room([], false), [Joins(true, true), PressesFive(0)]);
    assert RoomAt(r, events, 1) == Stepped(RoomAt(r, events, 0), events[0]);
    assert Spoiled(r, events, 1) == 0;
  }

  // ---- What the commands of a run add up to ----

  /** The user a command is about: everybody, the one of that number, or the last to join. */
  predicate Concerns(e: Event, no: nat, last: bool)
    requires e.Commands?
  {
    || e.cmd == 'K' || e.cmd == 'N' || e.cmd == 'n'
    || ((e.cmd == 'M' || e.cmd == 'm' || e.cmd == 'k') && e.ident == Some(Decimal(no)))
    || (e.cmd == 'e' && last)
  }

  /** K and k kick, and e unless an admin; N, unless an admin, and M mute; n and m lift it. */
  predicate Kicks(e: Event, no: nat, admin: bool, last: bool) {
    e.Commands? && Concerns(e, no, last) && (e.cmd == 'K' || e.cmd == 'k' || (e.cmd == 'e' && !admin))
  }

  predicate Mutes(e: Event, no: nat, admin: bool, last: bool) {
    e.Commands? && Concerns(e, no, last) && (e.cmd == 'M' || (e.cmd == 'N' && !admin))
  }

  predicate Lifts(e: Event, no: nat, last: bool) {
    e.Commands? && Concerns(e, no, last) && (e.cmd == 'm' || e.cmd == 'n')
  }

  predicate OnlyCommands(events: seq<Event>, n: nat)
    requires n <= |events|
  {
    forall k :: 0 <= k < n ==> events[k].Commands?
  }

  /** One command, field by field. */
  lemma CommandMeaning(r: Room, e: Event, i: nat)
    requires e.Commands? && i < |r.people|
    ensures |Stepped(r, e).people| == |r.people|
    ensures var (was, is_, last) := (r.people[i], Stepped(r, e).people[i], i == |r.people| - 1);
            && is_ == was.(kicked := is_.kicked, muted := is_.muted)
            && (is_.kicked <==> was.kicked || Kicks(e, was.userNo, was.admin, last))
            && (is_.muted <==> Mutes(e, was.userNo, was.admin, last) || (was.muted && !Lifts(e, was.userNo, last)))
  {
  }

  /** After any commands a participant is kicked exactly when it was before or one of them kicks it, and is
      muted exactly when one of them, or the mute it had, was not followed by one that lifts it; nothing else
      about it changes. */
  lemma {:induction false} CommandsAddUp(r: Room, events: seq<Event>, n: nat, i: nat)
    requires n <= |events| && OnlyCommands(events, n) && i < |r.people|
    ensures |RoomAt(r, events, n).people| == |r.people|
    ensures var (was, is_, last) := (r.people[i], RoomAt(r, events, n).people[i], i == |r.people| - 1);
            && is_ == was.(kicked := is_.kicked, muted := is_.muted)
            && (is_.kicked <==> was.kicked || exists k :: 0 <= k < n && Kicks(events[k], was.userNo, was.admin, last))
            && (is_.muted <==> StaysMuted(was, events, n, last))
  {
    if n == 0 {
    } else {
      CommandsAddUp(r, events, n - 1, i);
      CommandMeaning(RoomAt(r, events, n - 1), events[n - 1], i);
      MutedNext(r.people[i], events, n, i == |r.people| - 1);
    }
  }

  /** Some command mutes, or the mute is on from the start, and none after it lifts the mute. */
  predicate StaysMuted(was: User, events: seq<Event>, n: nat, last: bool)
    requires n <= |events|
  {
    || (was.muted && NoLift(was.userNo, events, 0, n, last))
    || exists k :: 0 <= k < n && Mutes(events[k], was.userNo, was.admin, last)
                   && NoLift(was.userNo, events, k + 1, n, last)
  }

  predicate NoLift(no: nat, events: seq<Event>, from: nat, n: nat, last: bool)
    requires n <= |events|
  {
    forall k :: from <= k < n ==> !Lifts(events[k], no, last)
  }

  lemma MutedNext(was: User, events: seq<Event>, n: nat, last: bool)
    requires 0 < n <= |events|
    ensures StaysMuted(was, events, n, last) <==>
      || Mutes(events[n - 1], was.userNo, was.admin, last)
      || (StaysMuted(was, events, n - 1, last) && !Lifts(events[n - 1], was.userNo, last))
  {
    if Mutes(events[n - 1], was.userNo, was.admin, last) {
      assert NoLift(was.userNo, events, n, n, last);
    }
    if StaysMuted(was, events, n - 1, last) && !Lifts(events[n - 1], was.userNo, last) {
      if !(was.muted && NoLift(was.userNo, events, 0, n - 1, last)) {
        var k :| 0 <= k < n - 1 && Mutes(events[k], was.userNo, was.admin, last)
                 && NoLift(was.userNo, events, k + 1, n - 1, last);
        assert NoLift(was.userNo, events, k + 1, n, last);
      }
    }
    if StaysMuted(was, events, n, last) && !Mutes(events[n - 1], was.userNo, was.admin, last) {
      if !(was.muted && NoLift(was.userNo, events, 0, n, last)) {
        var k :| 0 <= k < n && Mutes(events[k], was.userNo, was.admin, last)
                 && NoLift(was.userNo, events, k + 1, n, last);
        assert NoLift(was.userNo, events, k + 1, n - 1, last);
      }
    }
  }

  /** A caller is turned away by the lock, and otherwise comes in behind the others, under a number above the
      last one's, neither muted nor kicked, as the admin and marked user it says it is. */
  lemma JoinMeaning(r: Room, admin: bool, marked: bool)
    ensures var q := Stepped(r, Joins(admin, marked));
            && q.locked == r.locked && r.people <= q.people && |q.people| == |r.people| + (if r.locked then 0 else 1)
            && (!r.locked ==>
                var u := q.people[|r.people|];
                && u.admin == admin && u.marked == marked && !u.muted && !u.kicked
                && u.userNo == 1 + if r.people == [] then 0 else r.people[|r.people| - 1].userNo)
  {
  }

  /** In any run the lock is on exactly when the last of L and l was L, or it was on and there was no l. */
  lemma {:induction false} LockDecides(r: Room, events: seq<Event>, n: nat)
    requires n <= |events|
    ensures RoomAt(r, events, n).locked <==>
      || (r.locked && forall k :: 0 <= k < n ==> events[k] != Commands('l', EventIdent(events[k])))
      || exists k :: 0 <= k < n && events[k] == Commands('L', EventIdent(events[k]))
                     && forall j :: k < j < n ==> events[j] != Commands('l', EventIdent(events[j]))
  {
    if n == 0 {
    } else {
      LockDecides(r, events, n - 1);
      var e := events[n - 1];
      if e == Commands('L', EventIdent(e)) {
        assert RoomAt(r, events, n).locked;
      } else if e == Commands('l', EventIdent(e)) {
        assert !RoomAt(r, events, n).locked;
      } else {
        assert RoomAt(r, events, n).locked == RoomAt(r, events, n - 1).locked;
      }
    }
  }

  function EventIdent(e: Event): Option<string> {
    if e.Commands? then e.ident else None
  }

  // ---- The conference ----

  class Conference {
    var mem: Store
    var first: Option<Ptr>
    var last: Option<Ptr>
    var users: int
    var markedUsers: int
    var locked: bool
    var freed: bool
    ghost var list: seq<Ptr>

    ghost predicate Valid()
      reads this
    {
      !freed && users == |list| && first == HeadOf(list) && last == TailOf(list) && ListOk(mem, list)
    }

    /** The roster the records stand for. */
    ghost function Now(): Room
      requires Stored(mem, list)
      reads this
    {
      Room(People(mem, list), locked)
    }

    /** By how much the count of marked users is off. */
    ghost function Drift(): int
      reads this
    {
      markedUsers - Marked(mem, list)
    }

    constructor ()
      ensures Valid() && Drift() == 0 && list == [] && !locked
    {
      mem, first, last, users, markedUsers, locked, freed, list := map[], None, None, 0, 0, false, false, [];
    }

    /** Hangs the cell u on to the end of the list, under the next number. */
    method Append(u: Ptr) returns (broken: bool)
      requires u in mem && (first.None? <==> last.None?)
      requires last.Some? ==> last.value in mem && last.value != u && mem[last.value].next.None?
      modifies this`mem, this`first, this`last
      ensures mem == Appended(old(mem), old(last), u) && !broken
      ensures last == Some(u) && first == if old(first).None? then Some(u) else old(first)
    {
      broken := false;
      if first.None? {
        mem := mem[u := mem[u].(userNo := 1, prev := None, next := None)];
        first, last := Some(u), Some(u);
      } else {
        mem := mem[u := mem[u].(userNo := mem[last.value].userNo + 1, prev := last, next := None)];
        if mem[last.value].next.Some? {
          broken := true;
        } else {
          mem := mem[last.value := mem[last.value].(next := Some(u))];
          last := Some(u);
        }
      }
    }

    /** A new record at the end of the list. */
    method Enlist(u: Ptr, admin: bool, marked: bool) returns (broken: bool)
      requires first == HeadOf(list) && last == TailOf(list) && ListOk(mem, list) && u !in mem
      modifies this`mem, this`first, this`last, this`list
      ensures !broken && list == old(list) + [u]
      ensures first == HeadOf(list) && last == TailOf(list) && ListOk(mem, list)
      ensures mem == Appended(old(mem)[u := User(0, None, None, marked, admin, false, false)], TailOf(old(list)), u)
      ensures Marked(mem, list) == old(Marked(mem, list)) + if marked then 1 else 0
    {
      mem := mem[u := User(0, None, None, marked, admin, false, false)];
      JoinKeeps(old(mem), mem, list, u);
      broken := Append(u);
      list := list + [u];
    }

    /** A caller comes in, or is turned away when the conference is locked. */
    method Join(u: Ptr, admin: bool, marked: bool) returns (joined: bool, broken: bool)
      requires Valid() && u !in mem
      modifies this
      ensures Valid() && !broken && joined == !old(locked) && locked == old(locked)
      ensures list == if joined then old(list) + [u] else old(list)
      ensures joined ==>
        mem == Appended(old(mem)[u := User(0, None, None, marked, admin, false, false)], TailOf(old(list)), u)
      ensures !joined ==> mem == old(mem)
      ensures Drift() == old(Drift())
    {
      joined, broken := !locked, false;
      if joined {
        if marked { markedUsers := markedUsers + 1; }
        broken := Enlist(u, admin, marked);
        users := users + 1;
      }
    }

    /** Takes the cell u out of the list. */
    method Unlink(u: Ptr) returns (broken: bool)
      requires u in mem
      modifies this`mem, this`first, this`last
      ensures Unlinking(mem, first, last, broken) == Unlinked(old(mem), old(first), old(last), u)
    {
      broken := false;
      var prev, next := mem[u].prev, mem[u].next;
      if first == Some(u) {
        if next.Some? { mem := SetPrev(mem, next, None); } else { last := None; }
        first := next;
      } else if last == Some(u) {
        if prev.Some? { mem := SetNext(mem, prev, None); } else { broken := true; }
        last := prev;
      } else {
        if next.Some? { mem := SetPrev(mem, next, prev); } else { broken := true; }
        if prev.Some? { mem := SetNext(mem, prev, next); } else { broken := true; }
      }
    }

    /** Unlinks the k-th participant's record and frees it. */
    method TakeOut(u: Ptr, ghost k: nat) returns (broken: bool)
      requires first == HeadOf(list) && last == TailOf(list) && ListOk(mem, list)
      requires k < |list| && |list| > 1 && list[k] == u
      modifies this`mem, this`first, this`last, this`list
      ensures !broken && list == Without(old(list), k)
      ensures first == HeadOf(list) && last == TailOf(list) && ListOk(mem, list)
      ensures People(mem, list) == Without(old(People(mem, list)), k) && mem.Keys == old(mem).Keys - {u}
      ensures old(Marked(mem, list)) == Marked(mem, list) + if old(mem)[u].marked then 1 else 0
    {
      LeftList(mem, list, k);
      LeftMarked(mem, list, k);
      LeftPeople(mem, list, k);
      broken := Unlink(u);
      mem := mem - {u};
      list := Without(list, k);
    }

    /** The k-th participant leaves; when it was the only one the conference goes with it. */
    method Leave(u: Ptr, ghost k: nat) returns (broken: bool)
      requires Valid() && k < |list| && list[k] == u
      modifies this
      ensures !broken && locked == old(locked)
      ensures freed <==> old(|list|) == 1
      ensures list == Without(old(list), k)
      ensures !freed ==> Valid() && mem.Keys == old(mem).Keys - {u}
      ensures !freed ==> People(mem, list) == Without(old(People(mem, list)), k)
      ensures Drift() == old(Drift())
    {
      broken := false;
      users := users - 1;
      if mem[u].marked { markedUsers := markedUsers - 1; }
      if users == 0 {
        LastLeft(mem, list, k);
        freed, list := true, [];
      } else {
        broken := TakeOut(u, k);
      }
    }

    /** Menu key 5 of an admin: meant to turn the marked flag on and off.  A user already marked keeps the
        flag while the count goes down, so the count is off by one more exactly when the user was marked. */
    method PressFive(u: Ptr, ghost k: nat)
      requires Valid() && k < |list| && list[k] == u
      modifies this`mem, this`markedUsers
      ensures Valid() && mem == old(mem)[u := old(mem)[u].(marked := true)]
      ensures Drift() == old(Drift()) - if old(mem)[u].marked then 1 else 0
    {
      if !mem[u].marked {
        markedUsers := markedUsers + 1;
        mem := mem[u := mem[u].(marked := true)];
      } else {
        markedUsers := markedUsers - 1;
        mem := mem[u := mem[u].(marked := true)];
      }
      SameLinksKeep(old(mem), mem, list);
      RemarkCount(old(mem), mem, list, k);
    }

    /** Looks a user up by the text of its number. */
    method FindUser(ident: string) returns (user: Option<Ptr>)
      requires Valid()
      ensures user.Some? ==> user.value in list && Decimal(mem[user.value].userNo) == ident
      ensures user.None? ==> forall i :: 0 <= i < |list| ==> Decimal(mem[list[i]].userNo) != ident
    {
      user := first;
      ghost var i := 0;
      while user.Some?
        invariant i <= |list| && user == if i < |list| then Some(list[i]) else None
        invariant forall j :: 0 <= j < i ==> Decimal(mem[list[j]].userNo) != ident
        decreases |list| - i
      {
        assert LinkedAt(mem, list, i);
        if Decimal(mem[user.value].userNo) == ident { return; }
        user := mem[user.value].next;
        i := i + 1;
      }
    }

    /** 'K', 'N' and 'n' go through the whole list. */
    method CommandAll(cmd: char, ghost ident: Option<string>)
      requires Valid() && (cmd == 'K' || cmd == 'N' || cmd == 'n')
      modifies this`mem
      ensures Obeyed(cmd, old(mem), mem, list, ident)
    {
      var user := first;
      ghost var i := 0;
      while user.Some?
        invariant i <= |list| && user == if i < |list| then Some(list[i]) else None
        invariant mem.Keys == old(mem).Keys
        invariant forall j :: 0 <= j < |list| ==>
          mem[list[j]] == if j < i then Commanded(cmd, old(mem)[list[j]], false, false) else old(mem)[list[j]]
        decreases |list| - i
      {
        assert LinkedAt(old(mem), list, i);
        forall j | 0 <= j < |list| ensures list[i] == list[j] <==> i == j { OnListOnce(old(mem), list, i, j); }
        var u := user.value;
        var r := mem[u];
        if cmd == 'K' {
          r := r.(kicked := true);
        } else if cmd == 'N' {
          if !r.admin { r := r.(muted := true); }
        } else if r.muted {
          r := r.(muted := false);
        }
        mem := mem[u := r];
        user := r.next;
        i := i + 1;
      }
    }

    /** 'M', 'm' and 'k' act on the user with the given number, if there is one. */
    method CommandOne(cmd: char, ident: Option<string>)
      requires Valid() && (cmd == 'M' || cmd == 'm' || cmd == 'k')
      modifies this`mem
      ensures Obeyed(cmd, old(mem), mem, list, ident)
    {
      if ident.Some? {
        var user := FindUser(ident.value);
        if user.Some? {
          var u := user.value;
          ghost var k :| 0 <= k < |list| && list[k] == u;
          OnlyNamed(mem, list, k, ident.value);
          var r := mem[u];
          if cmd == 'M' {
            r := r.(muted := true);
          } else if cmd == 'k' {
            r := r.(kicked := true);
          } else if r.muted {
            r := r.(muted := false);
          }
          mem := mem[u := r];
        }
      }
    }

    /** 'e' kicks whoever joined last, unless that is an admin.  It reads the last user's record without
        asking whether there is one: false when there is not. */
    method EjectLast(ghost ident: Option<string>) returns (ok: bool)
      requires Valid()
      modifies this`mem
      ensures ok <==> list != []
      ensures if ok then Obeyed('e', old(mem), mem, list, ident) else mem == old(mem)
    {
      ok := last.Some?;
      if ok {
        var u := last.value;
        ghost var k := |list| - 1;
        forall j | 0 <= j < |list| && j != k ensures list[j] != u { OnListOnce(mem, list, j, k); }
        if !mem[u].admin { mem := mem[u := mem[u].(kicked := true)]; }
      }
    }

    /** Tells the commands apart. */
    method Obey(cmd: char, ident: Option<string>) returns (ok: bool)
      requires Valid()
      modifies this`mem, this`locked
      ensures ok <==> cmd != 'e' || list != []
      ensures locked == Lock(old(locked), cmd)
      ensures Obeyed(cmd, old(mem), mem, list, ident)
    {
      ok := true;
      if cmd == 'L' {
        locked := true;
      } else if cmd == 'l' {
        locked := false;
      } else if cmd == 'e' {
        ok := EjectLast(ident);
      } else if cmd == 'K' || cmd == 'N' || cmd == 'n' {
        CommandAll(cmd, ident);
      } else if cmd == 'M' || cmd == 'm' || cmd == 'k' {
        CommandOne(cmd, ident);
      }
    }

    /** MeetMeAdmin: locks, kicks, mutes and unmutes; false where it reads through a null pointer, which is
        just when the last user of an empty conference is to be ejected. */
    method AdminExec(cmd: char, ident: Option<string>) returns (ok: bool)
      requires Valid()
      modifies this`mem, this`locked
      ensures ok <==> cmd != 'e' || list != []
      ensures Valid() && Drift() == old(Drift())
      ensures locked == Lock(old(locked), cmd)
      ensures Obeyed(cmd, old(mem), mem, list, ident)
    {
      ok := Obey(cmd, ident);
      ObeyedKeeps(cmd, old(mem), mem, list, ident);
    }

    /** The k-th participant's record, found along the links. */
    method At(k: nat) returns (user: Option<Ptr>)
      requires Valid()
      ensures user == if k < |list| then Some(list[k]) else None
    {
      user := first;
      var i := 0;
      while i < k && user.Some?
        invariant 0 <= i <= k && i <= |list| && user == if i < |list| then Some(list[i]) else None
      {
        assert LinkedAt(mem, list, i);
        user := mem[user.value].next;
        i := i + 1;
      }
    }

    /** Any address at which there is no record yet. */
    method Malloc() returns (u: Ptr)
      ensures u !in mem
    {
      ghost var free := FreeAddress(mem.Keys);
      assert free !in mem;
      u :| u !in mem;
    }

    /** One event is one step of the roster, and spoils the count or does not.  Of a participant who is not
        there it does nothing. */
    method Happens(event: Event) returns (broken: bool)
      requires Valid()
      modifies this
      ensures !broken && (freed <==> Ends(old(Now()), event))
      ensures if freed then list == [] else Valid() && Now() == Stepped(old(Now()), event)
      ensures Drift() == old(Drift()) - if Spoils(old(Now()), event) then 1 else 0
    {
      broken := false;
      match event
      case Joins(admin, marked) =>
        var u := Malloc();
        var joined;
        joined, broken := Join(u, admin, marked);
        if joined { JoinedPeople(old(mem), old(list), u, admin, marked); }
      case Leaves(k) =>
        var user := At(k);
        if user.Some? { broken := Leave(user.value, k); }
      case PressesFive(k) =>
        var user := At(k);
        if user.Some? && mem[user.value].admin {
          PressFive(user.value, k);
          PressedPeople(old(mem), list, k);
        }
      case Commands(cmd, ident) =>
        var _ := AdminExec(cmd, ident);
        ObeyedPeople(cmd, old(mem), mem, list, ident);
    }

    /** Event number n of a run. */
    method Advance(events: seq<Event>, n: nat, ghost r: Room) returns (broken: bool)
      requires n < |events| && Valid() && Now() == RoomAt(r, events, n) && Drift() == 0 - Spoiled(r, events, n)
      modifies this
      ensures !broken && (freed <==> EndsAt(r, events, n))
      ensures !freed ==> Valid() && Now() == RoomAt(r, events, n + 1)
      ensures Drift() == 0 - Spoiled(r, events, n + 1)
    {
      broken := Happens(events[n]);
    }

    /** Any run of the conference, up to its end.  However participants come and go, the links stand for the
        plain roster and none is ever missing; the conference goes exactly with its last participant; and the
        count of marked users is short by the number of times key 5 was pressed by an admin already marked,
        so it is right exactly when that never happened. */
    method Run(events: seq<Event>) returns (n: nat, broken: bool)
      requires Valid() && Drift() == 0
      modifies this
      ensures !broken && n <= |events|
      ensures if freed then n > 0 && Lasts(old(Now()), events, n - 1) && EndsAt(old(Now()), events, n - 1)
              else Lasts(old(Now()), events, n) && n == |events| && Valid() && Now() == RoomAt(old(Now()), events, n)
      ensures markedUsers == Marked(mem, list) - Spoiled(old(Now()), events, n)
      ensures markedUsers == Marked(mem, list) <==> forall i :: 0 <= i < n ==> !SpoilsAt(old(Now()), events, i)
    {
      n, broken := 0, false;
      ghost var r := Now();
      while n < |events| && !freed
        invariant 0 <= n <= |events| && !broken
        invariant if freed then n > 0 && Lasts(r, events, n - 1) && EndsAt(r, events, n - 1)
                  else Lasts(r, events, n) && Valid() && Now() == RoomAt(r, events, n)
        invariant Drift() == 0 - Spoiled(r, events, n)
      {
        broken := Advance(events, n, r);
        n := n + 1;
      }
      SpoiledIff(r, events, n);
    }
  }

  /** Every user on the list has had the command done to it, and to its flags only. */
  ghost predicate Obeyed(cmd: char, mem: Store, mem': Store, list: seq<Ptr>, ident: Option<string>) {
    && mem'.Keys == mem.Keys
    && Stored(mem, list)
    && forall i :: 0 <= i < |list| ==>
         mem'[list[i]] == Commanded(cmd, mem[list[i]], Some(Decimal(mem[list[i]].userNo)) == ident, i == |list| - 1)
  }

  /** The store after the k-th user has left and its record is freed. */
  ghost function Left(mem: Store, list: seq<Ptr>, k: nat): Store
    requires k < |list| && list[k] in mem
  {
    Unlinked(mem, HeadOf(list), TailOf(list), list[k]).mem - {list[k]}
  }

  /** A record that stays is the same but for its links. */
  lemma LeftCell(mem: Store, list: seq<Ptr>, k: nat, i: nat)
    requires ListOk(mem, list) && k < |list| && i < |list| - 1
    ensures var (mem', u) := (Left(mem, list, k), Without(list, k)[i]);
            u == list[Was(k, i)] && u in mem && u in mem' && Person(mem'[u]) == Person(mem[u])
            && mem'[u] == Unlinked(mem, HeadOf(list), TailOf(list), list[k]).mem[u]
  {
    UnlinkCell(mem, list, k, Was(k, i));
    OnListOnce(mem, list, k, Was(k, i));
  }

  /** With the record of the one that left freed, the rest of the list is still in order. */
  lemma LeftList(mem: Store, list: seq<Ptr>, k: nat)
    requires ListOk(mem, list) && k < |list| && |list| > 1
    ensures var (r, list') := (Unlinked(mem, HeadOf(list), TailOf(list), list[k]), Without(list, k));
            !r.broken && r.first == HeadOf(list') && r.last == TailOf(list') && ListOk(Left(mem, list, k), list')
  {
    var list' := Without(list, k);
    UnlinkKeeps(mem, list, k);
    forall i | 0 <= i < |list'| ensures LeftIs(mem, list, k, i) { LeftCell(mem, list, k, i); }
    SameLinksKeep(Unlinked(mem, HeadOf(list), TailOf(list), list[k]).mem, Left(mem, list, k), list');
  }

  ghost predicate LeftIs(mem: Store, list: seq<Ptr>, k: nat, i: nat)
    requires k < |list| && i < |list| - 1 && list[k] in mem
  {
    var (mem', mem'') := (Unlinked(mem, HeadOf(list), TailOf(list), list[k]).mem, Left(mem, list, k));
    var u := Without(list, k)[i];
    u in mem && u in mem' && u in mem'' && mem''[u] == mem'[u] && Person(mem''[u]) == Person(mem[u])
  }

  lemma LeftMarked(mem: Store, list: seq<Ptr>, k: nat)
    requires ListOk(mem, list) && k < |list|
    ensures Marked(mem, list) == Marked(Left(mem, list, k), Without(list, k)) + if mem[list[k]].marked then 1 else 0
  {
    var list' := Without(list, k);
    MarkedWithout(mem, list, k);
    forall i | 0 <= i < |list'|
      ensures list'[i] in mem && list'[i] in Left(mem, list, k)
      ensures Left(mem, list, k)[list'[i]].marked == mem[list'[i]].marked
    {
      LeftCell(mem, list, k, i);
    }
    MarkedSame(mem, Left(mem, list, k), list');
  }

  /** The marked flag of the only user is the count. */
  lemma LastLeft(mem: Store, list: seq<Ptr>, k: nat)
    requires Stored(mem, list) && k < |list| == 1
    ensures Without(list, k) == [] && Marked(mem, list) == if mem[list[k]].marked then 1 else 0
  {
  }

  // ---- What the steps do to the roster ----

  lemma JoinedPeople(mem: Store, list: seq<Ptr>, u: Ptr, admin: bool, marked: bool)
    requires ListOk(mem, list) && u !in mem
    ensures var (mem0, list') := (mem[u := User(0, None, None, marked, admin, false, false)], list + [u]);
            var mem' := Appended(mem0, TailOf(list), u);
            && Stored(mem', list')
            && People(mem', list')
               == People(mem, list) + [User(NextNo(People(mem, list)), None, None, marked, admin, false, false)]
  {
  }

  lemma LeftPeople(mem: Store, list: seq<Ptr>, k: nat)
    requires ListOk(mem, list) && k < |list|
    ensures Stored(Left(mem, list, k), Without(list, k))
    ensures People(Left(mem, list, k), Without(list, k)) == Without(People(mem, list), k)
  {
    forall i | 0 <= i < |list| - 1 ensures LeftIs(mem, list, k, i) && Without(list, k)[i] == list[Was(k, i)] {
      LeftCell(mem, list, k, i);
    }
  }

  lemma PressedPeople(mem: Store, list: seq<Ptr>, k: nat)
    requires ListOk(mem, list) && k < |list|
    ensures var mem' := mem[list[k] := mem[list[k]].(marked := true)];
            && Stored(mem', list)
            && People(mem', list) == People(mem, list)[k := People(mem, list)[k].(marked := true)]
  {
  }

  lemma ObeyedPeople(cmd: char, mem: Store, mem': Store, list: seq<Ptr>, ident: Option<string>)
    requires Obeyed(cmd, mem, mem', list, ident)
    ensures Stored(mem', list) && People(mem', list) == Told(People(mem, list), cmd, ident)
  {
  }

  /** Only one user has a number. */
  lemma OnlyNamed(mem: Store, list: seq<Ptr>, k: nat, ident: string)
    requires ListOk(mem, list) && k < |list| && Decimal(mem[list[k]].userNo) == ident
    ensures forall j :: 0 <= j < |list| && j != k ==> list[j] != list[k] && Decimal(mem[list[j]].userNo) != ident
  {
    forall j | 0 <= j < |list| && j != k
      ensures list[j] != list[k] && Decimal(mem[list[j]].userNo) != ident
    {
      OnListOnce(mem, list, j, k);
      if Decimal(mem[list[j]].userNo) == ident { DecimalInjective(mem[list[j]].userNo, mem[list[k]].userNo); }
    }
  }

  /** There is always an address left. */
  lemma FreeAddress(used: set<Ptr>) returns (u: Ptr)
    ensures forall v :: v in used ==> v < u
  {
    if used == {} {
      u := 0;
    } else {
      var w :| w in used;
      u := FreeAddress(used - {w});
      assert forall v :: v in used ==> v == w || v in used - {w};
      u := if w < u then u else w + 1;
    }
  }

  lemma RemarkCount(mem: Store, mem': Store, list: seq<Ptr>, k: nat)
    requires ListOk(mem, list) && k < |list| && mem' == mem[list[k] := mem[list[k]].(marked := true)]
    ensures Marked(mem', list) == Marked(mem, list) + if mem[list[k]].marked then 0 else 1
  {
    MarkedWithout(mem, list, k);
    MarkedWithout(mem', list, k);
    var list' := Without(list, k);
    forall i | 0 <= i < |list'| ensures list'[i] in mem && mem'[list'[i]] == mem[list'[i]] {
      OnListOnce(mem, list, k, Was(k, i));
    }
    MarkedSame(mem, mem', list');
  }

  lemma JoinKeeps(mem: Store, mem0: Store, list: seq<Ptr>, u: Ptr)
    requires ListOk(mem, list) && u !in mem && u in mem0 && mem0 == mem[u := mem0[u]]
    ensures TailOf(list).Some? ==>
      var l := TailOf(list).value; l in mem0 && l != u && mem0[l].next.None?
    ensures ListOk(Appended(mem0, TailOf(list), u), list + [u])
    ensures Marked(Appended(mem0, TailOf(list), u), list + [u]) == Marked(mem, list) + if mem0[u].marked then 1 else 0
  {
    SameLinksKeep(mem, mem0, list);
    AppendKeeps(mem0, list, u);
    var mem' := Appended(mem0, TailOf(list), u);
    MarkedConcat(mem', list, [u]);
    assert [u][1..] == [];
    MarkedSame(mem, mem', list);
  }

  lemma ObeyedKeeps(cmd: char, mem: Store, mem': Store, list: seq<Ptr>, ident: Option<string>)
    requires ListOk(mem, list) && Obeyed(cmd, mem, mem', list, ident)
    ensures ListOk(mem', list) && Marked(mem', list) == Marked(mem, list)
  {
    forall i | 0 <= i < |list| ensures SameBut(mem[list[i]], mem'[list[i]]) {
      CommandedKeeps(cmd, mem[list[i]], Some(Decimal(mem[list[i]].userNo)) == ident, i == |list| - 1);
    }
    SameLinksKeep(mem, mem', list);
    MarkedSame(mem, mem', list);
  }

  /** Two records differ at most in what admins set. */
  predicate SameBut(u: User, v: User) {
    v == u.(muted := v.muted, kicked := v.kicked)
  }

  lemma CommandedKeeps(cmd: char, u: User, named: bool, isLast: bool)
    ensures SameBut(u, Commanded(cmd, u, named, isLast))
  {
  }
}

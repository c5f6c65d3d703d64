/** ADSIProg: the five symbol tables of a script.

    Keys, subroutines, states, flags and displays each have a table of names that is searched without
    regard to case and extended at the end.  An entry's number is its place in the table plus a base. */
module AdsiTables {
  import opened Common

  /** Room for a name in an entry, without the final zero. */
  const NAME_ROOM := 39

  /** What cw_copy_string stores of a name. */
  function Kept(name: string): string {
    if |name| <= NAME_ROOM then name else name[..NAME_ROOM]
  }

  /** The place of a name in a table; the size of the table when it is not there. */
  function Place(names: seq<string>, name: string): (i: nat)
    ensures i <= |names|
  {
    if names == [] then 0 else if SameText(names[0], name) then 0 else 1 + Place(names[1..], name)
  }

  lemma {:induction false} PlaceMeaning(names: seq<string>, name: string)
    ensures Place(names, name) < |names| ==> SameText(names[Place(names, name)], name)
    ensures forall j :: 0 <= j < Place(names, name) ==> !SameText(names[j], name)
  {
    if names == [] || SameText(names[0], name) {
    } else {
      PlaceMeaning(names[1..], name);
      forall j | 0 <= j < Place(names, name) ensures !SameText(names[j], name) {
        if j > 0 { assert names[j] == names[1..][j - 1]; }
      }
    }
  }

  /** The table after a name is looked up in it and, where the caller may, added. */
  function Grown(names: seq<string>, name: string, room: nat, create: bool): seq<string> {
    if Place(names, name) == |names| && create && |names| < room then names + [Kept(name)] else names
  }

  function Entry(names: seq<string>, name: string, room: nat, create: bool): Option<nat> {
    if Place(names, name) < |names| || (create && |names| < room) then Some(Place(names, name)) else None
  }

  /** One of the get...byname functions. */
  method GetByName(names: seq<string>, name: string, room: nat, create: bool)
    returns (names': seq<string>, entry: Option<nat>)
    ensures names' == Grown(names, name, room, create) && entry == Entry(names, name, room, create)
  {
    var x := 0;
    assert names[0..] == names;
    while x < |names|
      invariant x <= |names|
      invariant Place(names, name) == x + Place(names[x..], name)
    {
      if SameText(names[x], name) { return names, Some(x); }
      assert names[x..][1..] == names[x + 1..];
      x := x + 1;
    }
    if !create || |names| >= room { return names, None; }
    return names + [if |name| <= NAME_ROOM then name else name[..NAME_ROOM]], Some(|names|);
  }

  /** No two names of a table are the same, case aside. */
  ghost predicate Distinct(names: seq<string>) {
    forall i, j :: 0 <= i < j < |names| ==> !SameText(names[i], names[j])
  }

  /** A lookup keeps the names distinct exactly when it adds nothing or what it stores of the name is not
      already there.  A name that fits is stored whole, so only one that does not fit can break a table. */
  lemma GrownDistinctIff(names: seq<string>, name: string, room: nat, create: bool)
    requires Distinct(names)
    ensures Distinct(Grown(names, name, room, create))
            <==> Grown(names, name, room, create) == names || Place(names, Kept(name)) == |names|
    ensures |name| <= NAME_ROOM ==> Distinct(Grown(names, name, room, create))
  {
    PlaceMeaning(names, name);
    PlaceMeaning(names, Kept(name));
    var names' := Grown(names, name, room, create);
    if names' != names {
      var i := Place(names, Kept(name));
      if i < |names| { assert SameText(names'[i], names'[|names|]); }
    }
  }

  /** The table never outgrows its room, entries keep their places, and an entry found is an entry of the
      grown table under that name. */
  lemma GrownMeaning(names: seq<string>, name: string, room: nat, create: bool)
    requires |names| <= room
    ensures names <= Grown(names, name, room, create) && |Grown(names, name, room, create)| <= room
    ensures Entry(names, name, room, create).Some? ==>
      var (names', i) := (Grown(names, name, room, create), Entry(names, name, room, create).value);
      i < |names'| && (|name| <= NAME_ROOM ==> SameText(names'[i], name))
  {
    PlaceMeaning(names, name);
  }

  /** A name of forty characters is not found again, and a second entry under its first thirty-nine is made. */
  lemma LongNameTwice()
    ensures exists name: string :: |name| == NAME_ROOM + 1 && !Distinct(Grown(Grown([], name, 7, true), name, 7, true))
  {
    var name := seq(NAME_ROOM + 1, _ => 'x');
    var once := Grown([], name, 7, true);
    assert once == [Kept(name)];
    PlaceMeaning(once, name);
    var twice := Grown(once, name, 7, true);
    assert twice == [Kept(name), Kept(name)];
    assert SameText(twice[0], twice[1]);
  }
}

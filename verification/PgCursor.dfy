/** PGSQL(Fetch): row cursors kept behind numeric handles in a dialplan variable.

    A status variable holds the number of an entry in a global list; each fetch takes the entry out,
    delivers a row, and files a new entry under a new number.  What a dialplan should see is a plain
    iterator over the rows. */
module PgCursor {
  import opened Common

  datatype Kind = ConnId | ResId | FetchId

  datatype Data = Connection | Rows(rows: seq<seq<string>>) | Cursor(next: nat)

  datatype Entry = Entry(kind: Kind, id: nat, data: Data)

  datatype Var = Var(name: string, value: string)

  // ---- The identifier list ----

  ghost function Ids(ids: seq<Entry>): set<nat> {
    if ids == [] then {} else {ids[0].id} + Ids(ids[1..])
  }

  /** Each entry carries the data its kind promises, under a positive number no other entry has. */
  ghost predicate ListOk(ids: seq<Entry>) {
    ids == [] || (ids[0].id > 0 && Fits(ids[0]) && ids[0].id !in Ids(ids[1..]) && ListOk(ids[1..]))
  }

  predicate Fits(e: Entry) {
    match e.kind case ConnId => e.data.Connection? case ResId => e.data.Rows? case FetchId => e.data.Cursor?
  }

  predicate Matches(e: Entry, id: nat, kind: Kind) {
    e.id == id && e.kind == kind
  }

  function Lookup(ids: seq<Entry>, id: nat, kind: Kind): Option<Data> {
    if ids == [] then None
    else if Matches(ids[0], id, kind) then Some(ids[0].data) else Lookup(ids[1..], id, kind)
  }

  function Without(ids: seq<Entry>, id: nat, kind: Kind): seq<Entry> {
    if ids == [] then []
    else if Matches(ids[0], id, kind) then ids[1..] else [ids[0]] + Without(ids[1..], id, kind)
  }

  function MaxId(ids: seq<Entry>): nat {
    if ids == [] then 0 else if ids[0].id > MaxId(ids[1..]) then ids[0].id else MaxId(ids[1..])
  }

  function Filed(ids: seq<Entry>, kind: Kind, data: Data): seq<Entry> {
    [Entry(kind, MaxId(ids) + 1, data)] + ids
  }

  lemma {:induction false} MaxIdBounds(ids: seq<Entry>)
    ensures forall id :: id in Ids(ids) ==> id <= MaxId(ids)
  {
    if ids == [] {
    } else {
      MaxIdBounds(ids[1..]);
    }
  }

  lemma {:induction false} LookupIsLive(ids: seq<Entry>, id: nat, kind: Kind)
    requires ListOk(ids)
    ensures Lookup(ids, id, kind).Some? ==>
      id > 0 && id in Ids(ids) && Fits(Entry(kind, id, Lookup(ids, id, kind).value))
  {
    if ids == [] {
    } else {
      LookupIsLive(ids[1..], id, kind);
    }
  }

  /** A number handed out is above every live one, so live numbers stay positive and distinct. */
  lemma FiledKeeps(ids: seq<Entry>, kind: Kind, data: Data)
    requires ListOk(ids) && Fits(Entry(kind, 1, data))
    ensures ListOk(Filed(ids, kind, data))
    ensures MaxId(ids) + 1 !in Ids(ids)
    ensures Lookup(Filed(ids, kind, data), MaxId(ids) + 1, kind) == Some(data)
    ensures forall id, k :: Lookup(ids, id, k).Some? ==> Lookup(Filed(ids, kind, data), id, k) == Lookup(ids, id, k)
  {
    MaxIdBounds(ids);
    assert Filed(ids, kind, data)[1..] == ids;
    forall id, k | Lookup(ids, id, k).Some? ensures id != MaxId(ids) + 1 { LookupIsLive(ids, id, k); }
  }

  /** Taking an entry out leaves no entry under its number and every other entry findable as before. */
  lemma {:induction false} WithoutKeeps(ids: seq<Entry>, id: nat, kind: Kind)
    requires ListOk(ids)
    ensures ListOk(Without(ids, id, kind)) && Ids(Without(ids, id, kind)) <= Ids(ids)
    ensures |Without(ids, id, kind)| == |ids| - if Lookup(ids, id, kind).Some? then 1 else 0
    ensures Lookup(Without(ids, id, kind), id, kind).None?
    ensures forall id', k' :: (id' != id || k' != kind) ==>
      Lookup(Without(ids, id, kind), id', k') == Lookup(ids, id', k')
  {
    if ids == [] {
    } else {
      if Matches(ids[0], id, kind) {
        LookupIsLive(ids[1..], id, kind);
      } else {
        WithoutKeeps(ids[1..], id, kind);
        assert Without(ids, id, kind)[1..] == Without(ids[1..], id, kind);
      }
    }
  }

  // ---- Channel variables ----

  /** strncasecmp(name, v, strlen(v)) == 0: the name begins with v, case aside. */
  predicate Begins(v: string, name: string) {
    |v| <= |name| && forall i :: 0 <= i < |v| ==> ToLower(v[i]) == ToLower(name[i])
  }

  /** The value of the first variable whose name begins with v. */
  function Find(vars: seq<Var>, v: string): Option<string> {
    if vars == [] then None else if Begins(v, vars[0].name) then Some(vars[0].value) else Find(vars[1..], v)
  }

  function Unset(vars: seq<Var>, name: string): seq<Var> {
    if vars == [] then [] else if vars[0].name == name then vars[1..] else [vars[0]] + Unset(vars[1..], name)
  }

  function SetVar(vars: seq<Var>, name: string, value: string): seq<Var> {
    [Var(name, value)] + Unset(vars, name)
  }

  /** The columns of a row, as far as there are variables for them. */
  function SetColumns(vars: seq<Var>, names: seq<string>, row: seq<string>): seq<Var>
    decreases |names|
  {
    if names == [] || row == [] then vars else SetColumns(SetVar(vars, names[0], row[0]), names[1..], row[1..])
  }

  lemma {:induction false} UnsetElsewhere(vars: seq<Var>, name: string, w: string)
    requires !Begins(w, name)
    ensures Find(Unset(vars, name), w) == Find(vars, w)
  {
    if vars == [] || vars[0].name == name {
    } else {
      UnsetElsewhere(vars[1..], name, w);
      assert Unset(vars, name)[1..] == Unset(vars[1..], name);
    }
  }

  /** Setting a variable leaves alone every lookup its name does not answer. */
  lemma SetElsewhere(vars: seq<Var>, name: string, value: string, w: string)
    requires !Begins(w, name)
    ensures Find(SetVar(vars, name, value), w) == Find(vars, w)
  {
    UnsetElsewhere(vars, name, w);
    assert SetVar(vars, name, value)[1..] == Unset(vars, name);
  }

  lemma {:induction false} ColumnsElsewhere(vars: seq<Var>, names: seq<string>, row: seq<string>, w: string)
    requires forall i :: 0 <= i < |names| ==> !Begins(w, names[i])
    ensures Find(SetColumns(vars, names, row), w) == Find(vars, w)
    decreases |names|
  {
    if names == [] || row == [] {
    } else {
      SetElsewhere(vars, names[0], row[0], w);
      ColumnsElsewhere(SetVar(vars, names[0], row[0]), names[1..], row[1..], w);
    }
  }

  /** The last of the first n names that answers a lookup of w. */
  function Answering(names: seq<string>, n: nat, w: string): (k: Option<nat>)
    requires n <= |names|
    ensures k.Some? ==> k.value < n && Begins(w, names[k.value])
  {
    if n == 0 then None else if Begins(w, names[n - 1]) then Some(n - 1) else Answering(names, n - 1, w)
  }

  lemma {:induction false} AnsweringTail(names: seq<string>, n: nat, w: string)
    requires 0 < n <= |names|
    ensures Answering(names, n, w) == match Answering(names[1..], n - 1, w)
                                      case Some(k) => Some(k + 1)
                                      case None => if Begins(w, names[0]) then Some(0) else None
  {
    if n == 1 {
    } else {
      AnsweringTail(names, n - 1, w);
    }
  }

  /** How many columns of a row have a variable to go to. */
  function Columns(names: seq<string>, row: seq<string>): nat {
    if |names| < |row| then |names| else |row|
  }

  /** What a lookup finds after a row was delivered: the column of the last variable that answers it, and if
      none does what it found before. */
  lemma {:induction false} ColumnsRead(vars: seq<Var>, names: seq<string>, row: seq<string>, w: string)
    ensures Find(SetColumns(vars, names, row), w) == match Answering(names, Columns(names, row), w)
                                                     case Some(k) => Some(row[k])
                                                     case None => Find(vars, w)
    decreases |names|
  {
    if names == [] || row == [] {
    } else {
      ColumnsRead(SetVar(vars, names[0], row[0]), names[1..], row[1..], w);
      AnsweringTail(names, Columns(names, row), w);
      if !Begins(w, names[0]) { SetElsewhere(vars, names[0], row[0], w); }
    }
  }

  // ---- Fetch ----

  /** The two lists a fetch works on. */
  datatype Db = Db(ids: seq<Entry>, vars: seq<Var>)

  datatype Out = Invalid | Row(index: nat) | Eof

  /** The handle a fetch through v starts from. */
  function Handle(db: Db, v: string): nat {
    match Find(db.vars, v) case Some(text) => Atoi(text) case None => 0
  }

  /** The variables once the status variable is known to exist. */
  function Opened(db: Db, v: string): seq<Var> {
    if Find(db.vars, v).Some? then db.vars else SetVar(db.vars, v, "0")
  }

  /** The row the cursor behind v stands at; 0 when there is none. */
  function NextRow(db: Db, v: string): nat {
    match Lookup(db.ids, Handle(db, v), FetchId) case Some(Cursor(next)) => next case _ => 0
  }

  /** The list without that cursor. */
  function Released(db: Db, v: string): seq<Entry> {
    if Lookup(db.ids, Handle(db, v), FetchId).Some? then Without(db.ids, Handle(db, v), FetchId) else db.ids
  }

  /** What a fetch leaves in the identifier list and the channel's variables, and what it reports. */
  function Fetched(db: Db, v: string, res: nat, names: seq<string>): (Db, Out) {
    match Lookup(db.ids, res, ResId)
    case Some(Rows(rows)) =>
      var i, ids := NextRow(db, v), Released(db, v);
      if i < |rows| then
        (Db(Filed(ids, FetchId, Cursor(i + 1)),
            SetVar(SetColumns(Opened(db, v), names, rows[i]), v, Decimal(MaxId(ids) + 1))), Row(i))
      else (Db(ids, SetVar(Opened(db, v), v, Decimal(0))), Eof)
    case _ => (Db(db.ids, Opened(db, v)), Invalid)
  }

  /** A channel, as far as PGSQL looks at it. */
  class Channel {
    var vars: seq<Var>

    constructor ()
      ensures vars == []
    {
      vars := [];
    }

    method SetRow(names: seq<string>, row: seq<string>)
      modifies this`vars
      ensures vars == SetColumns(old(vars), names, row)
    {
      var j := 0;
      assert names[0..] == names && row[0..] == row;
      while j < |row| && j < |names|
        invariant j <= |row| && j <= |names|
        invariant SetColumns(old(vars), names, row) == SetColumns(vars, names[j..], row[j..])
      {
        vars := SetVar(vars, names[j], row[j]);
        assert names[j..][1..] == names[j + 1..] && row[j..][1..] == row[j + 1..];
        j := j + 1;
      }
    }
  }

  /** The identifier list, which all channels share. */
  class Pgsql {
    var ids: seq<Entry>

    constructor ()
      ensures ids == []
    {
      ids := [];
    }

    method FindIdentifier(id: nat, kind: Kind) returns (data: Option<Data>)
      ensures data == Lookup(ids, id, kind)
    {
      var rest := ids;
      while rest != []
        invariant Lookup(ids, id, kind) == Lookup(rest, id, kind)
        decreases |rest|
      {
        if Matches(rest[0], id, kind) { return Some(rest[0].data); }
        rest := rest[1..];
      }
      data := None;
    }

    method AddIdentifier(kind: Kind, data: Data) returns (id: nat)
      modifies this`ids
      ensures ids == Filed(old(ids), kind, data) && id == MaxId(old(ids)) + 1
    {
      var max := 0;
      var n := |ids|;
      assert ids[n..] == [];
      while n > 0
        invariant n <= |ids| && max == MaxId(ids[n..])
      {
        n := n - 1;
        assert ids[n..][1..] == ids[n + 1..];
        if ids[n].id > max { max := ids[n].id; }
      }
      assert ids[0..] == ids;
      id := max + 1;
      ids := [Entry(kind, id, data)] + ids;
    }

    method DelIdentifier(id: nat, kind: Kind) returns (res: int)
      modifies this`ids
      ensures ids == Without(old(ids), id, kind)
      ensures res == if Lookup(old(ids), id, kind).Some? then 0 else -1
    {
      var before, rest := [], ids;
      while rest != []
        invariant ids == old(ids) == before + rest
        invariant Without(ids, id, kind) == before + Without(rest, id, kind)
        invariant Lookup(ids, id, kind) == Lookup(rest, id, kind)
        decreases |rest|
      {
        if Matches(rest[0], id, kind) {
          ids := before + rest[1..];
          return 0;
        }
        Associative(before, [rest[0]], Without(rest[1..], id, kind));
        Associative(before, [rest[0]], rest[1..]);
        assert [rest[0]] + rest[1..] == rest;
        before, rest := before + [rest[0]], rest[1..];
      }
      res := -1;
    }

    /** Takes the cursor under a handle, if there is one, off the list; the row it stood at. */
    method Release(id: nat) returns (i: nat)
      requires ListOk(ids)
      modifies this`ids
      ensures ids == if Lookup(old(ids), id, FetchId).Some? then Without(old(ids), id, FetchId) else old(ids)
      ensures i == match Lookup(old(ids), id, FetchId) case Some(Cursor(next)) => next case _ => 0
    {
      i := 0;
      LookupIsLive(ids, id, FetchId);
      var cursor := FindIdentifier(id, FetchId);
      if cursor.Some? {
        i := cursor.value.next;
        var _ := DelIdentifier(id, FetchId);
      }
    }

    method Fetch(chan: Channel, v: string, result: nat, names: seq<string>) returns (out: Out)
      requires ListOk(ids)
      modifies this`ids, chan`vars
      ensures (Db(ids, chan.vars), out) == Fetched(old(Db(ids, chan.vars)), v, result, names)
    {
      var text, found := "0", Find(chan.vars, v);
      if found.Some? { text := found.value; } else { chan.vars := SetVar(chan.vars, v, "0"); }
      var data := FindIdentifier(result, ResId);
      if data.None? { return Invalid; }
      LookupIsLive(ids, result, ResId);
      assert Atoi(text) == Handle(old(Db(ids, chan.vars)), v);
      var i := Release(Atoi(text));
      var handle := 0;
      out := Eof;
      if i < |data.value.rows| {
        chan.SetRow(names, data.value.rows[i]);
        handle := AddIdentifier(FetchId, Cursor(i + 1));
        out := Row(i);
      }
      chan.vars := SetVar(chan.vars, v, Decimal(handle));
    }
  }

  // ---- Refinement of a plain iterator ----

  ghost predicate TracksOne(db: Db, v: string, p: nat) {
    if p == 0 then Handle(db, v) == 0 else Lookup(db.ids, Handle(db, v), FetchId) == Some(Cursor(p))
  }

  type Chan = nat

  /** The list all channels share, and each channel's variables. */
  datatype World = World(ids: seq<Entry>, vars: map<Chan, seq<Var>>)

  /** A status variable of a channel. */
  datatype Status = Status(chan: Chan, name: string)

  /** What a fetch by one channel works on. */
  function View(w: World, c: Chan): Db {
    Db(w.ids, if c in w.vars then w.vars[c] else [])
  }

  function HandleOf(w: World, x: Status): nat {
    Handle(View(w, x.chan), x.name)
  }

  function FetchedBy(w: World, x: Status, res: nat, names: seq<string>): (World, Out) {
    var (db, out) := Fetched(View(w, x.chan), x.name, res, names);
    (World(db.ids, w.vars[x.chan := db.vars]), out)
  }

  ghost predicate Stands(w: World, x: Status, p: nat) {
    TracksOne(View(w, x.chan), x.name, p)
  }

  /** Two status variables of one channel, of which neither may begin the other. */
  ghost predicate Apart(x: Status, y: Status) {
    x != y && x.chan == y.chan ==> !Begins(x.name, y.name)
  }

  /** Through each status variable x the next row is pos[x]; no status variable begins another of the same
      channel, and no two of them share a handle. */
  ghost predicate Tracks(w: World, pos: map<Status, nat>) {
    && ListOk(w.ids)
    && (forall x, y :: x in pos && y in pos ==> Apart(x, y))
    && (forall x :: x in pos ==> Stands(w, x, pos[x]))
    && (forall x, y :: x in pos && y in pos && x != y && pos[x] > 0 && pos[y] > 0 ==> HandleOf(w, x) != HandleOf(w, y))
  }

  /** The results a run reads from stay on the list. */
  ghost predicate Holds(ids: seq<Entry>, results: map<nat, seq<seq<string>>>) {
    forall id :: id in results ==> Lookup(ids, id, ResId) == Some(Rows(results[id]))
  }

  /** A fetch through x does not deliver a column into a status variable. */
  ghost predicate NamesApart(names: seq<string>, x: Status, xs: set<Status>) {
    forall i, y :: 0 <= i < |names| && y in xs && y.chan == x.chan ==> !Begins(y.name, names[i])
  }

  /** A plain iterator over n rows: where it stands after a fetch, and what the fetch reports. */
  function Advance(p: nat, n: nat): nat {
    if p < n then p + 1 else 0
  }

  function Report(p: nat, n: nat): Out {
    if p < n then Row(p) else Eof
  }

  ghost predicate IsResult(ids: seq<Entry>, res: nat) {
    Lookup(ids, res, ResId).Some? && Lookup(ids, res, ResId).value.Rows?
  }

  /** What any lookup finds after a fetch of row i: the new handle in the status variable, column k of row i in
      the k-th variable named, and otherwise what was there. */
  ghost predicate Delivered(before: seq<Var>, after: seq<Var>, v: string, handle: nat, names: seq<string>,
                            row: seq<string>) {
    forall w :: Find(after, w) ==
      if Begins(w, v) then Some(Decimal(handle))
      else match Answering(names, Columns(names, row), w)
        case Some(k) => Some(row[k])
        case None => Find(before, w)
  }

  lemma DeliveredBy(before: seq<Var>, ready: seq<Var>, v: string, handle: nat, names: seq<string>, row: seq<string>)
    requires ready == before || ready == SetVar(before, v, "0")
    ensures Delivered(before, SetVar(SetColumns(ready, names, row), v, Decimal(handle)), v, handle, names, row)
  {
    var after := SetVar(SetColumns(ready, names, row), v, Decimal(handle));
    forall w ensures Find(after, w) ==
      if Begins(w, v) then Some(Decimal(handle))
      else match Answering(names, Columns(names, row), w)
        case Some(k) => Some(row[k])
        case None => Find(before, w)
    {
      if !Begins(w, v) {
        SetElsewhere(SetColumns(ready, names, row), v, Decimal(handle), w);
        ColumnsRead(ready, names, row, w);
        SetElsewhere(before, v, "0", w);
      }
    }
  }

  /** A fetch that reports a row delivers the columns of that row of the result; one that reports the end
      delivers none. */
  lemma FetchDelivers(db: Db, v: string, res: nat, names: seq<string>)
    requires IsResult(db.ids, res)
    ensures var ((db', out), rows) := (Fetched(db, v, res, names), Lookup(db.ids, res, ResId).value.rows);
            && (out.Row? ==> out.index < |rows|
                             && Delivered(db.vars, db'.vars, v, MaxId(Released(db, v)) + 1, names, rows[out.index]))
            && (out.Eof? ==> Delivered(db.vars, db'.vars, v, 0, names, []))
            && !out.Invalid?
  {
    var (rows, i) := (Lookup(db.ids, res, ResId).value.rows, NextRow(db, v));
    if i < |rows| {
      DeliveredBy(db.vars, Opened(db, v), v, MaxId(Released(db, v)) + 1, names, rows[i]);
    } else {
      DeliveredBy(db.vars, Opened(db, v), v, 0, names, []);
    }
  }

  /** A name that is not the beginning of a later one is the last to answer itself. */
  lemma {:induction false} AnswersItself(names: seq<string>, n: nat, j: nat)
    requires j < n <= |names| && forall k :: j < k < n ==> !Begins(names[j], names[k])
    ensures Answering(names, n, names[j]) == Some(j)
  {
    if n == j + 1 {
    } else {
      AnswersItself(names, n - 1, j);
    }
  }

  /** A fetch leaves the lookup of every other status variable alone. */
  lemma FetchElsewhere(db: Db, v: string, res: nat, names: seq<string>, w: string)
    requires !Begins(w, v)
    requires forall i :: 0 <= i < |names| ==> !Begins(w, names[i])
    ensures Find(Fetched(db, v, res, names).0.vars, w) == Find(db.vars, w)
  {
    var vars, data, i := Opened(db, v), Lookup(db.ids, res, ResId), NextRow(db, v);
    SetElsewhere(db.vars, v, "0", w);
    if data.Some? && data.value.Rows? && i < |data.value.rows| {
      ColumnsElsewhere(vars, names, data.value.rows[i], w);
      SetElsewhere(SetColumns(vars, names, data.value.rows[i]), v, Decimal(MaxId(Released(db, v)) + 1), w);
    } else {
      SetElsewhere(vars, v, Decimal(0), w);
    }
  }

  /** The status variable a fetch went through holds the number of the cursor it filed, or 0. */
  lemma FetchHere(db: Db, v: string, res: nat, names: seq<string>)
    requires IsResult(db.ids, res)
    ensures var (db', out) := Fetched(db, v, res, names);
            Handle(db', v) == if out.Row? then MaxId(Released(db, v)) + 1 else 0
  {
    AtoiDecimal(0);
    AtoiDecimal(MaxId(Released(db, v)) + 1);
  }

  /** A status variable that is the beginning of another is captured by it: once a fetch has gone through
      w, every v that w's name begins with stands on w's handle.  So variables must not begin one another. */
  lemma FetchCaptures(db: Db, w: string, res: nat, names: seq<string>, v: string)
    requires IsResult(db.ids, res) && Begins(v, w)
    ensures Handle(Fetched(db, w, res, names).0, v) == Handle(Fetched(db, w, res, names).0, w)
  {
  }

  /** A fetch takes the cursor it started from off the list and files the next. */
  lemma FetchOwn(db: Db, v: string, res: nat, names: seq<string>)
    requires ListOk(db.ids) && IsResult(db.ids, res)
    ensures var (db', out) := Fetched(db, v, res, names);
            && ListOk(db'.ids)
            && (out.Row? ==> Lookup(db'.ids, Handle(db', v), FetchId) == Some(Cursor(out.index + 1))
                             && Lookup(Released(db, v), Handle(db', v), FetchId).None?)
            && (out.Eof? ==> Lookup(db'.ids, Handle(db, v), FetchId).None?)
            && |db'.ids| == |Released(db, v)| + if out.Row? then 1 else 0
  {
    FetchHere(db, v, res, names);
    WithoutKeeps(db.ids, Handle(db, v), FetchId);
    var ids, i := Released(db, v), NextRow(db, v);
    FiledKeeps(ids, FetchId, Cursor(i + 1));
    LookupIsLive(ids, MaxId(ids) + 1, FetchId);
  }

  /** Every other entry is found as before. */
  lemma FetchOther(db: Db, v: string, res: nat, names: seq<string>, id: nat, k: Kind)
    requires ListOk(db.ids) && IsResult(db.ids, res)
    requires (id != Handle(db, v) || k != FetchId) && Lookup(db.ids, id, k).Some?
    ensures Lookup(Fetched(db, v, res, names).0.ids, id, k) == Lookup(db.ids, id, k)
  {
    WithoutKeeps(db.ids, Handle(db, v), FetchId);
    FiledKeeps(Released(db, v), FetchId, Cursor(NextRow(db, v) + 1));
  }

  /** What a fetch does to the list: the cursor it started from is gone, the one it filed is there, and
      every other entry is found as before. */
  lemma FetchIds(db: Db, v: string, res: nat, names: seq<string>)
    requires ListOk(db.ids) && IsResult(db.ids, res)
    ensures var (db', out) := Fetched(db, v, res, names);
            && ListOk(db'.ids)
            && (out.Row? ==> Lookup(db'.ids, Handle(db', v), FetchId) == Some(Cursor(out.index + 1))
                             && Lookup(Released(db, v), Handle(db', v), FetchId).None?)
            && (forall id, k :: (id != Handle(db, v) || k != FetchId) && Lookup(db.ids, id, k).Some?
                                ==> Lookup(db'.ids, id, k) == Lookup(db.ids, id, k))
            && (out.Eof? ==> Lookup(db'.ids, Handle(db, v), FetchId).None?)
            && |db'.ids| == |Released(db, v)| + if out.Row? then 1 else 0
  {
    FetchOwn(db, v, res, names);
    forall id, k | (id != Handle(db, v) || k != FetchId) && Lookup(db.ids, id, k).Some?
      ensures Lookup(Fetched(db, v, res, names).0.ids, id, k) == Lookup(db.ids, id, k)
    {
      FetchOther(db, v, res, names, id, k);
    }
  }

  /** The row delivered next is the iterator's, and its cursor, if any, leaves the list. */
  lemma StandsAt(db: Db, v: string, p: nat)
    requires ListOk(db.ids) && TracksOne(db, v, p)
    ensures NextRow(db, v) == p
    ensures |Released(db, v)| == |db.ids| - if p > 0 then 1 else 0
  {
    LookupIsLive(db.ids, Handle(db, v), FetchId);
    WithoutKeeps(db.ids, Handle(db, v), FetchId);
  }

  /** A fetch through x leaves the handle of every other status variable, on its channel or another. */
  lemma OtherHandle(w: World, x: Status, res: nat, names: seq<string>, y: Status)
    requires x != y && Apart(y, x) && NamesApart(names, x, {y})
    ensures HandleOf(FetchedBy(w, x, res, names).0, y) == HandleOf(w, y)
  {
    if x.chan == y.chan {
      forall i | 0 <= i < |names| ensures !Begins(y.name, names[i]) { assert y in {y}; }
      FetchElsewhere(View(w, x.chan), x.name, res, names, y.name);
    }
  }

  /** The other status variables stand where they stood, on handles of their own. */
  lemma OthersStand(w: World, pos: map<Status, nat>, x: Status, res: nat, names: seq<string>, y: Status)
    requires Tracks(w, pos) && x in pos && y in pos && x != y && NamesApart(names, x, pos.Keys) && IsResult(w.ids, res)
    ensures var (w', out) := FetchedBy(w, x, res, names);
            && Stands(w', y, pos[y]) && HandleOf(w', y) == HandleOf(w, y)
            && (pos[y] > 0 && out.Row? ==> HandleOf(w', y) != HandleOf(w', x))
  {
    OtherHandle(w, x, res, names, y);
    var db := View(w, x.chan);
    FetchHere(db, x.name, res, names);
    FetchIds(db, x.name, res, names);
    assert Stands(w, x, pos[x]) && Stands(w, y, pos[y]);
    if pos[y] > 0 {
      LookupIsLive(w.ids, HandleOf(w, y), FetchId);
      LookupIsLive(w.ids, HandleOf(w, x), FetchId);
      WithoutKeeps(w.ids, HandleOf(w, x), FetchId);
    }
  }

  /** The variable fetched through moves as its iterator does. */
  lemma FetchAdvances(w: World, pos: map<Status, nat>, x: Status, res: nat, names: seq<string>)
    requires Tracks(w, pos) && x in pos && IsResult(w.ids, res)
    ensures var ((w', out), n) := (FetchedBy(w, x, res, names), |Lookup(w.ids, res, ResId).value.rows|);
            && out == Report(pos[x], n) && ListOk(w'.ids) && Stands(w', x, Advance(pos[x], n))
            && |w'.ids| + (if pos[x] > 0 then 1 else 0) == |w.ids| + if Advance(pos[x], n) > 0 then 1 else 0
  {
    var db := View(w, x.chan);
    assert Stands(w, x, pos[x]);
    StandsAt(db, x.name, pos[x]);
    FetchHere(db, x.name, res, names);
    FetchIds(db, x.name, res, names);
  }

  /** Between two worlds the other status variable y stands still, apart from where x stands at p. */
  ghost predicate Undisturbed(w: World, w': World, x: Status, p: nat, y: Status, q: nat) {
    && Stands(w', y, q) && HandleOf(w', y) == HandleOf(w, y)
    && (q > 0 && p > 0 ==> HandleOf(w', y) != HandleOf(w', x))
  }

  lemma TracksOn(w: World, w': World, pos: map<Status, nat>, x: Status, p: nat)
    requires Tracks(w, pos) && x in pos && ListOk(w'.ids) && Stands(w', x, p)
    requires forall y :: y in pos && y != x ==> Undisturbed(w, w', x, p, y, pos[y])
    ensures Tracks(w', pos[x := p])
  {
  }

  /** A fetch is one step of the iterator of its own variable and no step of any other, of this channel or
      another. */
  lemma FetchSimulates(w: World, pos: map<Status, nat>, x: Status, res: nat, names: seq<string>)
    requires Tracks(w, pos) && x in pos && NamesApart(names, x, pos.Keys) && IsResult(w.ids, res)
    ensures var ((w', out), n) := (FetchedBy(w, x, res, names), |Lookup(w.ids, res, ResId).value.rows|);
            && out == Report(pos[x], n)
            && Tracks(w', pos[x := Advance(pos[x], n)])
            && |w'.ids| + (if pos[x] > 0 then 1 else 0) == |w.ids| + if Advance(pos[x], n) > 0 then 1 else 0
  {
    var (w', p) := (FetchedBy(w, x, res, names).0, Advance(pos[x], |Lookup(w.ids, res, ResId).value.rows|));
    FetchAdvances(w, pos, x, res, names);
    forall y | y in pos && y != x ensures Undisturbed(w, w', x, p, y, pos[y]) {
      OthersStand(w, pos, x, res, names, y);
    }
    TracksOn(w, w', pos, x, p);
  }

  /** Channels that have not fetched yet stand at their first rows. */
  lemma FreshTracks(ids: seq<Entry>, pos: map<Status, nat>)
    requires ListOk(ids) && forall x, y :: x in pos && y in pos ==> Apart(x, y)
    requires forall x :: x in pos ==> pos[x] == 0
    ensures Tracks(World(ids, map[]), pos)
  {
  }

  // ---- Whole runs ----

  /** What channels may do, in any order: fetch; connect or query, which files an entry; clear or
      disconnect, which removes one. */
  datatype Op =
    | Fetch(x: Status, res: nat, names: seq<string>)
    | File(kind: Kind, data: Data)
    | Drop(id: nat, kind: Kind)

  ghost predicate OpOk(op: Op, xs: set<Status>, results: map<nat, seq<seq<string>>>) {
    match op
    case Fetch(x, res, names) => x in xs && res in results && NamesApart(names, x, xs)
    case File(kind, data) => kind != FetchId && Fits(Entry(kind, 1, data))
    case Drop(id, kind) => kind != FetchId && (kind == ResId ==> id !in results)
  }

  ghost predicate AllOk(ops: seq<Op>, xs: set<Status>, results: map<nat, seq<seq<string>>>) {
    forall k :: 0 <= k < |ops| ==> OpOk(ops[k], xs, results)
  }

  /** The steps of the code, and what they report. */
  function Done(w: World, op: Op): (World, Option<Out>) {
    match op
    case Fetch(x, res, names) => (FetchedBy(w, x, res, names).0, Some(FetchedBy(w, x, res, names).1))
    case File(kind, data) => (w.(ids := Filed(w.ids, kind, data)), None)
    case Drop(id, kind) => (w.(ids := Without(w.ids, id, kind)), None)
  }

  function Run(w: World, ops: seq<Op>): seq<Option<Out>>
    decreases |ops|
  {
    if ops == [] then [] else [Done(w, ops[0]).1] + Run(Done(w, ops[0]).0, ops[1..])
  }

  /** The same by the plain iterators, which know nothing of handles. */
  function Moved(pos: map<Status, nat>, results: map<nat, seq<seq<string>>>, op: Op): (map<Status, nat>, Option<Out>) {
    if op.Fetch? && op.x in pos && op.res in results then
      var p, n := pos[op.x], |results[op.res]|;
      (pos[op.x := Advance(p, n)], Some(Report(p, n)))
    else (pos, None)
  }

  function Iterate(pos: map<Status, nat>, results: map<nat, seq<seq<string>>>, ops: seq<Op>): seq<Option<Out>>
    decreases |ops|
  {
    if ops == [] then []
    else [Moved(pos, results, ops[0]).1] + Iterate(Moved(pos, results, ops[0]).0, results, ops[1..])
  }

  /** A list on which every cursor is found as before serves every status variable as before. */
  lemma OtherList(w: World, pos: map<Status, nat>, ids: seq<Entry>)
    requires Tracks(w, pos) && ListOk(ids)
    requires forall id :: Lookup(w.ids, id, FetchId).Some? ==> Lookup(ids, id, FetchId) == Lookup(w.ids, id, FetchId)
    ensures Tracks(w.(ids := ids), pos)
  {
    var w' := w.(ids := ids);
    forall x | x in pos ensures Stands(w', x, pos[x]) && HandleOf(w', x) == HandleOf(w, x) {
      assert Stands(w, x, pos[x]);
    }
  }

  /** One step of the code is one step of the iterators. */
  lemma StepRefines(w: World, pos: map<Status, nat>, results: map<nat, seq<seq<string>>>, op: Op)
    requires Tracks(w, pos) && Holds(w.ids, results) && OpOk(op, pos.Keys, results)
    ensures var ((w', out), (pos', out')) := (Done(w, op), Moved(pos, results, op));
            out == out' && Tracks(w', pos') && Holds(w'.ids, results) && pos'.Keys == pos.Keys
  {
    match op
    case Fetch(x, res, names) =>
      FetchSimulates(w, pos, x, res, names);
      FetchIds(View(w, x.chan), x.name, res, names);
    case File(kind, data) =>
      FiledKeeps(w.ids, kind, data);
      OtherList(w, pos, Filed(w.ids, kind, data));
    case Drop(id, kind) =>
      WithoutKeeps(w.ids, id, kind);
      OtherList(w, pos, Without(w.ids, id, kind));
  }

  /** Every run of fetches by any number of channels, each through any number of status variables, whatever
      else happens to the list in between, reports exactly what independent plain iterators would. */
  lemma {:induction false} RunRefines(
    w: World, pos: map<Status, nat>, results: map<nat, seq<seq<string>>>, ops: seq<Op>)
    requires Tracks(w, pos) && Holds(w.ids, results)
    requires AllOk(ops, pos.Keys, results)
    ensures Run(w, ops) == Iterate(pos, results, ops)
    decreases |ops|
  {
    if ops == [] {
    } else {
      StepRefines(w, pos, results, ops[0]);
      RunRefines(Done(w, ops[0]).0, Moved(pos, results, ops[0]).0, results, ops[1..]);
    }
  }

  // ---- Rows in order ----

  /** Where a plain iterator over n rows that stood at p stands after k fetches. */
  function Position(p: nat, n: nat, k: nat): nat {
    if k == 0 then p else Advance(Position(p, n, k - 1), n)
  }

  /** m modulo n + 1: the numbers 0 to n, over and over. */
  function Cycle(m: nat, n: nat): nat {
    if m <= n then m else Cycle(m - (n + 1), n)
  }

  lemma {:induction false} CycleNext(m: nat, n: nat)
    ensures Cycle(m + 1, n) == Advance(Cycle(m, n), n)
  {
    if m <= n {
    } else {
      CycleNext(m - (n + 1), n);
    }
  }

  /** An iterator goes through its rows and the end, and over again. */
  lemma {:induction false} IteratorCycles(p: nat, n: nat, k: nat)
    requires p <= n
    ensures Position(p, n, k) == Cycle(p + k, n)
  {
    if k == 0 {
    } else {
      IteratorCycles(p, n, k - 1);
      CycleNext(p + k - 1, n);
    }
  }

  /** How many of the first k operations fetch through x. */
  function Fetches(ops: seq<Op>, x: Status, k: nat): nat
    requires k <= |ops|
  {
    if k == 0 then 0 else Fetches(ops, x, k - 1) + if IsFetch(ops[k - 1], x) then 1 else 0
  }

  predicate IsFetch(op: Op, x: Status) {
    op.Fetch? && op.x == x
  }

  lemma {:induction false} FetchesTail(ops: seq<Op>, x: Status, k: nat)
    requires 0 < k <= |ops|
    ensures Fetches(ops, x, k) == Fetches(ops[1..], x, k - 1) + if IsFetch(ops[0], x) then 1 else 0
  {
    if k == 1 {
    } else {
      FetchesTail(ops, x, k - 1);
    }
  }

  lemma {:induction false} PositionTail(p: nat, n: nat, k: nat)
    ensures Position(Advance(p, n), n, k) == Position(p, n, k + 1)
  {
    if k == 0 {
    } else {
      PositionTail(p, n, k - 1);
    }
  }

  /** Every fetch through x is of a result of n rows. */
  ghost predicate AllOf(ops: seq<Op>, x: Status, results: map<nat, seq<seq<string>>>, n: nat) {
    forall k :: 0 <= k < |ops| && IsFetch(ops[k], x) ==> ops[k].res in results && |results[ops[k].res]| == n
  }

  lemma {:induction false} IterateAt(
    pos: map<Status, nat>, results: map<nat, seq<seq<string>>>, ops: seq<Op>, x: Status, n: nat, k: nat)
    requires x in pos && AllOf(ops, x, results, n) && k < |ops| && IsFetch(ops[k], x)
    ensures k < |Iterate(pos, results, ops)|
    ensures Iterate(pos, results, ops)[k] == Some(Report(Position(pos[x], n, Fetches(ops, x, k)), n))
    decreases k
  {
    if k == 0 {
    } else {
      var pos' := Moved(pos, results, ops[0]).0;
      assert forall j :: 0 <= j < |ops| - 1 ==> ops[1..][j] == ops[j + 1];
      IterateAt(pos', results, ops[1..], x, n, k - 1);
      FetchesTail(ops, x, k);
      PositionTail(pos[x], n, Fetches(ops[1..], x, k - 1));
    }
  }

  lemma IterateInOrder(
    pos: map<Status, nat>, results: map<nat, seq<seq<string>>>, ops: seq<Op>, x: Status, n: nat, k: nat)
    requires x in pos && pos[x] <= n && AllOf(ops, x, results, n) && k < |ops| && IsFetch(ops[k], x)
    ensures k < |Iterate(pos, results, ops)|
    ensures Iterate(pos, results, ops)[k] == Some(Report(Cycle(pos[x] + Fetches(ops, x, k), n), n))
  {
    IterateAt(pos, results, ops, x, n, k);
    IteratorCycles(pos[x], n, Fetches(ops, x, k));
  }

  /** In every interleaving of fetches by any channels through any status variables, a status variable x that
      stands at its first row gets row j of its n rows at its j-th fetch, counted from 0, the end at the one
      after the last row, and then starts over; and one that stands further on goes on from there. */
  lemma RowsInOrder(w: World, pos: map<Status, nat>, results: map<nat, seq<seq<string>>>, ops: seq<Op>,
                    x: Status, n: nat, k: nat)
    requires Tracks(w, pos) && Holds(w.ids, results) && x in pos && pos[x] <= n
    requires AllOk(ops, pos.Keys, results)
    requires AllOf(ops, x, results, n) && k < |ops| && IsFetch(ops[k], x)
    ensures k < |Run(w, ops)|
    ensures Run(w, ops)[k] == Some(Report(Cycle(pos[x] + Fetches(ops, x, k), n), n))
  {
    RunRefines(w, pos, results, ops);
    IterateInOrder(pos, results, ops, x, n, k);
  }

  // ---- Columns in order ----

  /** The world after the first k operations, and where the iterators stand then. */
  function WorldAt(w: World, ops: seq<Op>, k: nat): World
    requires k <= |ops|
  {
    if k == 0 then w else Done(WorldAt(w, ops, k - 1), ops[k - 1]).0
  }

  function PosAt(pos: map<Status, nat>, results: map<nat, seq<seq<string>>>, ops: seq<Op>, k: nat): map<Status, nat>
    requires k <= |ops|
  {
    if k == 0 then pos else Moved(PosAt(pos, results, ops, k - 1), results, ops[k - 1]).0
  }

  lemma {:induction false} TracksAt(
    w: World, pos: map<Status, nat>, results: map<nat, seq<seq<string>>>, ops: seq<Op>, k: nat)
    requires Tracks(w, pos) && Holds(w.ids, results) && AllOk(ops, pos.Keys, results) && k <= |ops|
    ensures Tracks(WorldAt(w, ops, k), PosAt(pos, results, ops, k)) && Holds(WorldAt(w, ops, k).ids, results)
    ensures PosAt(pos, results, ops, k).Keys == pos.Keys
  {
    if k == 0 {
    } else {
      TracksAt(w, pos, results, ops, k - 1);
      StepRefines(WorldAt(w, ops, k - 1), PosAt(pos, results, ops, k - 1), results, ops[k - 1]);
    }
  }

  lemma {:induction false} PositionAt(
    pos: map<Status, nat>, results: map<nat, seq<seq<string>>>, ops: seq<Op>, x: Status, n: nat, k: nat)
    requires x in pos && AllOf(ops, x, results, n) && k <= |ops|
    ensures x in PosAt(pos, results, ops, k)
    ensures PosAt(pos, results, ops, k)[x] == Position(pos[x], n, Fetches(ops, x, k))
  {
    if k == 0 {
    } else {
      PositionAt(pos, results, ops, x, n, k - 1);
    }
  }

  /** From w to w' the row went into the variables named, of the channel of x, and the handle into x. */
  ghost predicate DeliversTo(w: World, w': World, x: Status, names: seq<string>, row: seq<string>) {
    Delivered(View(w, x.chan).vars, View(w', x.chan).vars, x.name, HandleOf(w', x), names, row)
  }

  function RowAt(rows: seq<seq<string>>, p: nat): seq<string> {
    if p < |rows| then rows[p] else []
  }

  /** A variable named that is not the beginning of a later one, or of the status variable, holds its column. */
  lemma ColumnHolds(w: World, w': World, x: Status, names: seq<string>, row: seq<string>, j: nat)
    requires DeliversTo(w, w', x, names, row) && j < Columns(names, row) && !Begins(names[j], x.name)
    requires forall k :: j < k < Columns(names, row) ==> !Begins(names[j], names[k])
    ensures Find(View(w', x.chan).vars, names[j]) == Some(row[j])
  {
    AnswersItself(names, Columns(names, row), j);
  }

  /** A fetch in a world that follows its iterators delivers the row the iterator stands at. */
  lemma FetchDeliversRow(
    w: World, pos: map<Status, nat>, results: map<nat, seq<seq<string>>>, x: Status, res: nat, names: seq<string>)
    requires Tracks(w, pos) && Holds(w.ids, results) && x in pos && res in results
    ensures DeliversTo(w, FetchedBy(w, x, res, names).0, x, names, RowAt(results[res], pos[x]))
  {
    var db := View(w, x.chan);
    assert Stands(w, x, pos[x]);
    StandsAt(db, x.name, pos[x]);
    FetchDelivers(db, x.name, res, names);
    FetchHere(db, x.name, res, names);
  }

  lemma ColumnsAt(w: World, pos: map<Status, nat>, results: map<nat, seq<seq<string>>>, ops: seq<Op>, x: Status,
                  k: nat, p: nat)
    requires Tracks(w, pos) && Holds(w.ids, results) && AllOk(ops, pos.Keys, results)
    requires k < |ops| && IsFetch(ops[k], x) && ops[k].res in results
    requires x in PosAt(pos, results, ops, k) && PosAt(pos, results, ops, k)[x] == p
    ensures DeliversTo(WorldAt(w, ops, k), WorldAt(w, ops, k + 1), x, ops[k].names, RowAt(results[ops[k].res], p))
  {
    TracksAt(w, pos, results, ops, k);
    FetchDeliversRow(WorldAt(w, ops, k), PosAt(pos, results, ops, k), results, x, ops[k].res, ops[k].names);
  }

  /** In every interleaving of fetches by any channels through any status variables, the j-th fetch through x
      puts the columns of row j of its result, and of no other, into the variables it names; at the end it
      delivers nothing, and then it starts over. */
  lemma ColumnsInOrder(w: World, pos: map<Status, nat>, results: map<nat, seq<seq<string>>>, ops: seq<Op>,
                       x: Status, n: nat, k: nat)
    requires Tracks(w, pos) && Holds(w.ids, results) && x in pos && pos[x] <= n
    requires AllOk(ops, pos.Keys, results)
    requires AllOf(ops, x, results, n) && k < |ops| && IsFetch(ops[k], x)
    ensures DeliversTo(WorldAt(w, ops, k), WorldAt(w, ops, k + 1), x, ops[k].names,
                       RowAt(results[ops[k].res], Cycle(pos[x] + Fetches(ops, x, k), n)))
  {
    PositionCycles(pos, results, ops, x, n, k);
    ColumnsAt(w, pos, results, ops, x, k, Cycle(pos[x] + Fetches(ops, x, k), n));
  }

  lemma PositionCycles(
    pos: map<Status, nat>, results: map<nat, seq<seq<string>>>, ops: seq<Op>, x: Status, n: nat, k: nat)
    requires x in pos && pos[x] <= n && AllOf(ops, x, results, n) && k <= |ops|
    ensures x in PosAt(pos, results, ops, k)
    ensures PosAt(pos, results, ops, k)[x] == Cycle(pos[x] + Fetches(ops, x, k), n)
  {
    PositionAt(pos, results, ops, x, n, k);
    IteratorCycles(pos[x], n, Fetches(ops, x, k));
  }
}

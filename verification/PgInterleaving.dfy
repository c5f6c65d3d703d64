/** PGSQL(Fetch): fetches of several channels, cut where the lock on the identifier list is let go.

    find_identifier, del_identifier and add_identifier each take the lock by themselves, so between the
    parts of one fetch other channels may fetch, connect, query and clear.  What channels see is still a
    plain iterator for each status variable. */
module PgInterleaving {
  import opened Common
  import opened PgCursor

  type Fields = seq<string>

  /** How far a channel's fetch has got: it has the result, it has looked its cursor up, it has taken the
      cursor off the list. */
  datatype Stage =
    | Ready
    | Read(x: Status, rows: seq<Fields>, names: seq<string>, handle: nat)
    | Seen(x: Status, rows: seq<Fields>, names: seq<string>, handle: nat, cursor: Option<Data>)
    | Taken(x: Status, rows: seq<Fields>, names: seq<string>, i: nat)

  datatype Lanes = Lanes(w: World, stages: map<Chan, Stage>)

  function StageOf(l: Lanes, c: Chan): Stage {
    if c in l.stages then l.stages[c] else Ready
  }

  /** What one channel does under the lock, and on its own variables before or after; other operations on
      the list are those of PGSQL that are one step there too. */
  datatype Step =
    | Start(x: Status, res: nat, names: seq<string>)
    | Look(c: Chan)
    | Take(c: Chan)
    | End(c: Chan)
    | Outside(op: Op)

  // ---- The code ----

  function Started(l: Lanes, x: Status, res: nat, names: seq<string>): (Lanes, Option<Out>) {
    if StageOf(l, x.chan) != Ready then (l, None)
    else
      var db := View(l.w, x.chan);
      var w := l.w.(vars := l.w.vars[x.chan := Opened(db, x.name)]);
      match Lookup(l.w.ids, res, ResId)
      case Some(Rows(rows)) => (Lanes(w, l.stages[x.chan := Read(x, rows, names, Handle(db, x.name))]), None)
      case _ => (l.(w := w), Some(Invalid))
  }

  function Looked(l: Lanes, c: Chan): Lanes {
    match StageOf(l, c)
    case Read(x, rows, names, handle) =>
      l.(stages := l.stages[c := Seen(x, rows, names, handle, Lookup(l.w.ids, handle, FetchId))])
    case _ => l
  }

  function RowOf(cursor: Option<Data>): nat {
    match cursor case Some(Cursor(next)) => next case _ => 0
  }

  function TakenOff(l: Lanes, c: Chan): Lanes {
    match StageOf(l, c)
    case Seen(x, rows, names, handle, cursor) =>
      var ids := if cursor.Some? then Without(l.w.ids, handle, FetchId) else l.w.ids;
      Lanes(l.w.(ids := ids), l.stages[c := Taken(x, rows, names, RowOf(cursor))])
    case _ => l
  }

  function Ended(l: Lanes, c: Chan): (Lanes, Option<Out>) {
    match StageOf(l, c)
    case Taken(x, rows, names, i) =>
      var (ids, vars) := (l.w.ids, View(l.w, c).vars);
      if i < |rows| then
        var vars' := SetVar(SetColumns(vars, names, rows[i]), x.name, Decimal(MaxId(ids) + 1));
        (Lanes(World(Filed(ids, FetchId, Cursor(i + 1)), l.w.vars[c := vars']), l.stages[c := Ready]), Some(Row(i)))
      else
        (Lanes(l.w.(vars := l.w.vars[c := SetVar(vars, x.name, Decimal(0))]), l.stages[c := Ready]), Some(Eof))
    case _ => (l, None)
  }

  function Stepped(l: Lanes, step: Step): (Lanes, Option<Out>) {
    match step
    case Start(x, res, names) => Started(l, x, res, names)
    case Look(c) => (Looked(l, c), None)
    case Take(c) => (TakenOff(l, c), None)
    case End(c) => Ended(l, c)
    case Outside(op) => (l.(w := Done(l.w, op).0), None)
  }

  lemma SetTwice<K, V>(m: map<K, V>, k: K, v: V, v': V)
    ensures m[k := v][k := v'] == m[k := v']
  {
  }

  /** Up to its end the fetch has taken its cursor off the list and opened its variable. */
  lemma ThreeSteps(l: Lanes, x: Status, res: nat, names: seq<string>)
    requires StageOf(l, x.chan) == Ready && IsResult(l.w.ids, res)
    ensures var (l', db) := (TakenOff(Looked(Started(l, x, res, names).0, x.chan), x.chan), View(l.w, x.chan));
            && l'.w == World(Released(db, x.name), l.w.vars[x.chan := Opened(db, x.name)])
            && StageOf(l', x.chan) == Taken(x, Lookup(l.w.ids, res, ResId).value.rows, names, NextRow(db, x.name))
  {
  }

  /** A fetch that nothing comes between is the fetch taken as one step. */
  lemma FourSteps(l: Lanes, x: Status, res: nat, names: seq<string>)
    requires StageOf(l, x.chan) == Ready && IsResult(l.w.ids, res)
    ensures var l3 := TakenOff(Looked(Started(l, x, res, names).0, x.chan), x.chan);
            var (l4, out) := Ended(l3, x.chan);
            l4.w == FetchedBy(l.w, x, res, names).0 && out == Some(FetchedBy(l.w, x, res, names).1)
  {
    ThreeSteps(l, x, res, names);
    EndIsFetch(TakenOff(Looked(Started(l, x, res, names).0, x.chan), x.chan), l.w, x, res, names);
  }

  lemma EndIsFetch(l: Lanes, w: World, x: Status, res: nat, names: seq<string>)
    requires IsResult(w.ids, res)
    requires l.w == World(Released(View(w, x.chan), x.name), w.vars[x.chan := Opened(View(w, x.chan), x.name)])
    requires StageOf(l, x.chan)
          == Taken(x, Lookup(w.ids, res, ResId).value.rows, names, NextRow(View(w, x.chan), x.name))
    ensures Ended(l, x.chan).0.w == FetchedBy(w, x, res, names).0
    ensures Ended(l, x.chan).1 == Some(FetchedBy(w, x, res, names).1)
  {
    SetTwice(w.vars, x.chan, Opened(View(w, x.chan), x.name), FetchedBy(w, x, res, names).0.vars[x.chan]);
  }

  // ---- Plain iterators ----

  /** A fetch an iterator is asked for: over which rows, into which variables, and how many of its parts are
      done. */
  datatype Wish = Idle | Wish(x: Status, rows: seq<Fields>, names: seq<string>, part: nat)

  datatype Plain = Plain(pos: map<Status, nat>, wishes: map<Chan, Wish>)

  function WishOf(p: Plain, c: Chan): Wish {
    if c in p.wishes then p.wishes[c] else Idle
  }

  function Onward(p: Plain, c: Chan, part: nat): Plain {
    match WishOf(p, c)
    case Wish(x, rows, names, done) =>
      if done == part then p.(wishes := p.wishes[c := Wish(x, rows, names, part + 1)]) else p
    case Idle => p
  }

  /** The iterator moves, and reports, at the end of its fetch; it knows nothing of handles. */
  function Moves(p: Plain, results: map<nat, seq<Fields>>, step: Step): (Plain, Option<Out>) {
    match step
    case Start(x, res, names) =>
      if WishOf(p, x.chan) == Idle && res in results then
        (p.(wishes := p.wishes[x.chan := Wish(x, results[res], names, 1)]), None)
      else (p, None)
    case Look(c) => (Onward(p, c, 1), None)
    case Take(c) => (Onward(p, c, 2), None)
    case End(c) =>
      (match WishOf(p, c)
       case Wish(x, rows, _, 3) =>
         if x in p.pos then
           (Plain(p.pos[x := Advance(p.pos[x], |rows|)], p.wishes[c := Idle]), Some(Report(p.pos[x], |rows|)))
         else (p, None)
       case _ => (p, None))
    case Outside(_) => (p, None)
  }

  // ---- The relation ----

  /** x has no cursor on the list for the moment: its fetch has taken it and not yet filed the next. */
  predicate Mid(l: Lanes, x: Status) {
    StageOf(l, x.chan).Taken? && StageOf(l, x.chan).x == x
  }

  ghost predicate Fetching(c: Chan, x: Status, names: seq<string>, p: Plain) {
    x.chan == c && x in p.pos && NamesApart(names, x, p.pos.Keys)
  }

  /** A channel's fetch is as far as its iterator's, and has read what the iterator stands for. */
  ghost predicate InStep(l: Lanes, p: Plain, c: Chan) {
    match StageOf(l, c)
    case Ready => WishOf(p, c) == Idle
    case Read(x, rows, names, handle) =>
      Fetching(c, x, names, p) && WishOf(p, c) == Wish(x, rows, names, 1) && handle == HandleOf(l.w, x)
    case Seen(x, rows, names, handle, cursor) =>
      && Fetching(c, x, names, p) && WishOf(p, c) == Wish(x, rows, names, 2) && handle == HandleOf(l.w, x)
      && cursor == if p.pos[x] == 0 then None else Some(Cursor(p.pos[x]))
    case Taken(x, rows, names, i) =>
      Fetching(c, x, names, p) && WishOf(p, c) == Wish(x, rows, names, 3) && i == p.pos[x]
  }

  ghost predicate Placed(l: Lanes, x: Status, p: nat) {
    !Mid(l, x) ==> Stands(l.w, x, p)
  }

  ghost predicate HandlesApart(l: Lanes, x: Status, p: nat, y: Status, q: nat) {
    x != y && !Mid(l, x) && !Mid(l, y) && p > 0 && q > 0 ==> HandleOf(l.w, x) != HandleOf(l.w, y)
  }

  ghost predicate Follows(l: Lanes, p: Plain, results: map<nat, seq<Fields>>) {
    && ListOk(l.w.ids) && Holds(l.w.ids, results)
    && (forall x, y :: x in p.pos && y in p.pos ==> Apart(x, y))
    && (forall c :: InStep(l, p, c))
    && (forall x :: x in p.pos ==> Placed(l, x, p.pos[x]))
    && (forall x, y :: x in p.pos && y in p.pos ==> HandlesApart(l, x, p.pos[x], y, p.pos[y]))
  }

  ghost predicate StepOk(step: Step, xs: set<Status>, results: map<nat, seq<Fields>>) {
    match step
    case Start(x, res, names) => x in xs && res in results && NamesApart(names, x, xs)
    case Outside(op) => !op.Fetch? && OpOk(op, xs, results)
    case _ => true
  }

  /** The step of the code is the step of the iterators. */
  ghost predicate Agrees(l: Lanes, p: Plain, results: map<nat, seq<Fields>>, step: Step) {
    var ((l', out), (p', out')) := (Stepped(l, step), Moves(p, results, step));
    out == out' && Follows(l', p', results) && p'.pos.Keys == p.pos.Keys
  }

  // ---- What a step of one channel leaves alone ----

  /** The step is channel c's: nothing of another channel has changed. */
  ghost predicate SameLane(l: Lanes, p: Plain, l': Lanes, p': Plain, d: Chan) {
    StageOf(l', d) == StageOf(l, d) && WishOf(p', d) == WishOf(p, d) && View(l'.w, d).vars == View(l.w, d).vars
  }

  ghost predicate OnlyLane(l: Lanes, p: Plain, l': Lanes, p': Plain, c: Chan) {
    && p'.pos.Keys == p.pos.Keys
    && (forall d :: d != c ==> SameLane(l, p, l', p', d))
    && (forall x :: x in p.pos && x.chan != c ==> p'.pos[x] == p.pos[x])
  }

  lemma InStepElsewhere(l: Lanes, p: Plain, l': Lanes, p': Plain, c: Chan, d: Chan)
    requires InStep(l, p, d) && d != c && OnlyLane(l, p, l', p', c)
    ensures InStep(l', p', d)
  {
    assert SameLane(l, p, l', p', d);
  }

  /** Where every status variable is after a step, and the channel's own fetch, is all there is to show. */
  ghost predicate AllPlaced(l: Lanes, p: Plain) {
    forall x :: x in p.pos ==> Placed(l, x, p.pos[x])
  }

  ghost predicate AllApart(l: Lanes, p: Plain) {
    forall x, y :: x in p.pos && y in p.pos ==> HandlesApart(l, x, p.pos[x], y, p.pos[y])
  }

  lemma FollowsOn(l: Lanes, p: Plain, l': Lanes, p': Plain, results: map<nat, seq<Fields>>, c: Chan)
    requires Follows(l, p, results) && OnlyLane(l, p, l', p', c)
    requires ListOk(l'.w.ids) && Holds(l'.w.ids, results) && InStep(l', p', c)
    requires AllPlaced(l', p') && AllApart(l', p')
    ensures Follows(l', p', results)
  {
    forall d ensures InStep(l', p', d) {
      assert InStep(l, p, d);
      if d != c { InStepElsewhere(l, p, l', p', c, d); }
    }
  }

  /** Changing a channel's stage, wish and variables, the list, and the position of a variable of its own. */
  lemma LaneChanged(l: Lanes, p: Plain, l': Lanes, p': Plain, c: Chan)
    requires c in l'.stages && l'.stages == l.stages[c := l'.stages[c]]
    requires c in p'.wishes && p'.wishes == p.wishes[c := p'.wishes[c]]
    requires l'.w.vars == l.w.vars || (c in l'.w.vars && l'.w.vars == l.w.vars[c := l'.w.vars[c]])
    requires p'.pos == p.pos || exists x :: x in p.pos && x in p'.pos && x.chan == c && p'.pos == p.pos[x := p'.pos[x]]
    ensures OnlyLane(l, p, l', p', c)
  {
  }

  // ---- Each part of a fetch ----

  /** Making sure the status variable is there moves no handle. */
  lemma OpenedHandle(w: World, x: Status, y: Status)
    requires Apart(y, x)
    ensures HandleOf(w.(vars := w.vars[x.chan := Opened(View(w, x.chan), x.name)]), y) == HandleOf(w, y)
  {
    if x.chan == y.chan && x.name != y.name { SetElsewhere(View(w, x.chan).vars, x.name, "0", y.name); }
    AtoiDecimal(0);
  }

  /** Handles and positions are as they were, and who is between cursors. */
  ghost predicate Unmoved(l: Lanes, p: Plain, l': Lanes, p': Plain, x: Status) {
    && HandleOf(l'.w, x) == HandleOf(l.w, x) && (Mid(l', x) <==> Mid(l, x))
    && x in p.pos && x in p'.pos && p'.pos[x] == p.pos[x]
  }

  /** On the same list that is all a status variable needs. */
  lemma UnmovedKeep(l: Lanes, p: Plain, l': Lanes, p': Plain)
    requires AllPlaced(l, p) && AllApart(l, p) && l'.w.ids == l.w.ids && p'.pos.Keys == p.pos.Keys
    requires forall x :: x in p.pos ==> Unmoved(l, p, l', p', x)
    ensures AllPlaced(l', p') && AllApart(l', p')
  {
    forall x | x in p'.pos ensures Placed(l', x, p'.pos[x]) {
      assert Unmoved(l, p, l', p', x) && Placed(l, x, p.pos[x]);
    }
    forall x, y | x in p'.pos && y in p'.pos ensures HandlesApart(l', x, p'.pos[x], y, p'.pos[y]) {
      assert Unmoved(l, p, l', p', x) && Unmoved(l, p, l', p', y) && HandlesApart(l, x, p.pos[x], y, p.pos[y]);
    }
  }

  lemma StartAgrees(l: Lanes, p: Plain, results: map<nat, seq<Fields>>, x: Status, res: nat, names: seq<string>)
    requires Follows(l, p, results) && StepOk(Start(x, res, names), p.pos.Keys, results)
    ensures Agrees(l, p, results, Start(x, res, names))
  {
    assert InStep(l, p, x.chan);
    var (l', p') := (Started(l, x, res, names).0, Moves(p, results, Start(x, res, names)).0);
    if StageOf(l, x.chan) == Ready {
      forall y | y in p.pos ensures Unmoved(l, p, l', p', y) {
        assert Apart(y, x);
        OpenedHandle(l.w, x, y);
      }
      UnmovedKeep(l, p, l', p');
      LaneChanged(l, p, l', p', x.chan);
      FollowsOn(l, p, l', p', results, x.chan);
    }
  }

  lemma LookAgrees(l: Lanes, p: Plain, results: map<nat, seq<Fields>>, c: Chan)
    requires Follows(l, p, results)
    ensures Agrees(l, p, results, Look(c))
  {
    assert InStep(l, p, c);
    var (l', p') := (Looked(l, c), Onward(p, c, 1));
    if StageOf(l, c).Read? {
      var x := StageOf(l, c).x;
      assert Placed(l, x, p.pos[x]);
      LookupIsLive(l.w.ids, HandleOf(l.w, x), FetchId);
      forall y | y in p.pos ensures Unmoved(l, p, l', p', y) { }
      UnmovedKeep(l, p, l', p');
      LaneChanged(l, p, l', p', c);
      FollowsOn(l, p, l', p', results, c);
    }
  }

  /** Taking x's cursor leaves every other where it is. */
  lemma TakePlaces(l: Lanes, p: Plain, c: Chan, y: Status)
    requires ListOk(l.w.ids) && AllPlaced(l, p) && AllApart(l, p)
    requires InStep(l, p, c) && StageOf(l, c).Seen? && y in p.pos
    ensures Placed(TakenOff(l, c), y, p.pos[y])
  {
    var x := StageOf(l, c).x;
    WithoutKeeps(l.w.ids, HandleOf(l.w, x), FetchId);
    assert Placed(l, x, p.pos[x]) && Placed(l, y, p.pos[y]) && HandlesApart(l, x, p.pos[x], y, p.pos[y]);
  }

  lemma TakeKeeps(l: Lanes, p: Plain, c: Chan)
    requires ListOk(l.w.ids) && AllPlaced(l, p) && AllApart(l, p) && InStep(l, p, c) && StageOf(l, c).Seen?
    ensures var (l', p') := (TakenOff(l, c), Onward(p, c, 2)); AllPlaced(l', p') && AllApart(l', p')
  {
    var (l', p') := (TakenOff(l, c), Onward(p, c, 2));
    forall y | y in p.pos ensures Placed(l', y, p'.pos[y]) { TakePlaces(l, p, c, y); }
    forall y, z | y in p.pos && z in p.pos ensures HandlesApart(l', y, p'.pos[y], z, p'.pos[z]) {
      assert HandlesApart(l, y, p.pos[y], z, p.pos[z]);
    }
  }

  lemma TakeAgrees(l: Lanes, p: Plain, results: map<nat, seq<Fields>>, c: Chan)
    requires Follows(l, p, results)
    ensures Agrees(l, p, results, Take(c))
  {
    assert InStep(l, p, c);
    var (l', p') := (TakenOff(l, c), Onward(p, c, 2));
    if StageOf(l, c).Seen? {
      WithoutKeeps(l.w.ids, StageOf(l, c).handle, FetchId);
      TakeKeeps(l, p, c);
      LaneChanged(l, p, l', p', c);
      FollowsOn(l, p, l', p', results, c);
    }
  }

  /** Filing x's next cursor leaves every other status variable on its handle, which is not the new one. */
  lemma EndElsewhere(l: Lanes, p: Plain, c: Chan, y: Status)
    requires ListOk(l.w.ids) && AllPlaced(l, p) && InStep(l, p, c) && StageOf(l, c).Taken? && y in p.pos
    requires y != StageOf(l, c).x && Apart(y, StageOf(l, c).x)
    ensures var (l', x) := (Ended(l, c).0, StageOf(l, c).x);
            && HandleOf(l'.w, y) == HandleOf(l.w, y) && (Mid(l', y) <==> Mid(l, y)) && Placed(l', y, p.pos[y])
            && (!Mid(l, y) && p.pos[y] > 0 ==> HandleOf(l.w, y) != MaxId(l.w.ids) + 1)
  {
    var Taken(x, rows, names, i) := StageOf(l, c);
    var vars := View(l.w, c).vars;
    if y.chan == c {
      forall k | 0 <= k < |names| ensures !Begins(y.name, names[k]) { assert NamesApart(names, x, p.pos.Keys); }
      if i < |rows| {
        ColumnsElsewhere(vars, names, rows[i], y.name);
        SetElsewhere(SetColumns(vars, names, rows[i]), x.name, Decimal(MaxId(l.w.ids) + 1), y.name);
      } else {
        SetElsewhere(vars, x.name, Decimal(0), y.name);
      }
    }
    assert Placed(l, y, p.pos[y]);
    FiledKeeps(l.w.ids, FetchId, Cursor(i + 1));
    LookupIsLive(l.w.ids, HandleOf(l.w, y), FetchId);
  }

  /** x itself stands at its next row, on the new handle or on none. */
  lemma EndHere(l: Lanes, p: Plain, c: Chan)
    requires ListOk(l.w.ids) && InStep(l, p, c) && StageOf(l, c).Taken?
    ensures var (l', Taken(x, rows, _, i)) := (Ended(l, c).0, StageOf(l, c));
            && ListOk(l'.w.ids) && !Mid(l', x) && Stands(l'.w, x, Advance(i, |rows|))
            && HandleOf(l'.w, x) == (if i < |rows| then MaxId(l.w.ids) + 1 else 0)
    ensures forall id :: Lookup(l.w.ids, id, ResId).Some? ==>
      Lookup(Ended(l, c).0.w.ids, id, ResId) == Lookup(l.w.ids, id, ResId)
  {
    AtoiDecimal(0);
    AtoiDecimal(MaxId(l.w.ids) + 1);
    FiledKeeps(l.w.ids, FetchId, Cursor(StageOf(l, c).i + 1));
  }

  /** The plain iterator's own end of the fetch. */
  function EndedPlain(p: Plain, c: Chan, x: Status, n: nat): Plain
    requires x in p.pos
  {
    Plain(p.pos[x := Advance(p.pos[x], n)], p.wishes[c := Idle])
  }

  lemma EndKeeps(l: Lanes, p: Plain, c: Chan)
    requires ListOk(l.w.ids) && AllPlaced(l, p) && AllApart(l, p) && InStep(l, p, c) && StageOf(l, c).Taken?
    requires forall x, y :: x in p.pos && y in p.pos ==> Apart(x, y)
    ensures var p' := EndedPlain(p, c, StageOf(l, c).x, |StageOf(l, c).rows|);
            AllPlaced(Ended(l, c).0, p') && AllApart(Ended(l, c).0, p')
  {
    var x := StageOf(l, c).x;
    var (l', p') := (Ended(l, c).0, EndedPlain(p, c, x, |StageOf(l, c).rows|));
    EndHere(l, p, c);
    forall y | y in p.pos ensures Placed(l', y, p'.pos[y]) {
      assert Apart(y, x);
      if y != x { EndElsewhere(l, p, c, y); }
    }
    forall y, z | y in p.pos && z in p.pos ensures HandlesApart(l', y, p'.pos[y], z, p'.pos[z]) {
      assert Apart(y, x) && Apart(z, x) && HandlesApart(l, y, p.pos[y], z, p.pos[z]);
      if y != x { EndElsewhere(l, p, c, y); }
      if z != x { EndElsewhere(l, p, c, z); }
    }
  }

  lemma EndLane(l: Lanes, p: Plain, c: Chan)
    requires InStep(l, p, c) && StageOf(l, c).Taken?
    ensures var (l', p') := (Ended(l, c).0, EndedPlain(p, c, StageOf(l, c).x, |StageOf(l, c).rows|));
            OnlyLane(l, p, l', p', c) && InStep(l', p', c)
  {
    LaneChanged(l, p, Ended(l, c).0, EndedPlain(p, c, StageOf(l, c).x, |StageOf(l, c).rows|), c);
  }

  lemma EndFollows(l: Lanes, p: Plain, results: map<nat, seq<Fields>>, c: Chan)
    requires Follows(l, p, results) && InStep(l, p, c) && StageOf(l, c).Taken?
    ensures Follows(Ended(l, c).0, EndedPlain(p, c, StageOf(l, c).x, |StageOf(l, c).rows|), results)
  {
    EndHere(l, p, c);
    EndKeeps(l, p, c);
    EndLane(l, p, c);
    FollowsOn(l, p, Ended(l, c).0, EndedPlain(p, c, StageOf(l, c).x, |StageOf(l, c).rows|), results, c);
  }

  lemma EndAgrees(l: Lanes, p: Plain, results: map<nat, seq<Fields>>, c: Chan)
    requires Follows(l, p, results)
    ensures Agrees(l, p, results, End(c))
  {
    assert InStep(l, p, c);
    if StageOf(l, c).Taken? { EndFollows(l, p, results, c); }
  }

  /** A list on which every cursor is found as before serves every status variable as before. */
  lemma ListChanged(l: Lanes, p: Plain, ids: seq<Entry>)
    requires AllPlaced(l, p) && AllApart(l, p)
    requires forall id :: Lookup(l.w.ids, id, FetchId).Some? ==>
      Lookup(ids, id, FetchId) == Lookup(l.w.ids, id, FetchId)
    ensures var l' := l.(w := l.w.(ids := ids)); AllPlaced(l', p) && AllApart(l', p)
  {
    var l' := l.(w := l.w.(ids := ids));
    forall x | x in p.pos ensures Placed(l', x, p.pos[x]) { assert Placed(l, x, p.pos[x]); }
    forall x, y | x in p.pos && y in p.pos ensures HandlesApart(l', x, p.pos[x], y, p.pos[y]) {
      assert HandlesApart(l, x, p.pos[x], y, p.pos[y]);
    }
  }

  /** Filing and dropping what is not a cursor concerns no fetch under way. */
  lemma OutsideAgrees(l: Lanes, p: Plain, results: map<nat, seq<Fields>>, op: Op)
    requires Follows(l, p, results) && StepOk(Outside(op), p.pos.Keys, results)
    ensures Agrees(l, p, results, Outside(op))
  {
    var l' := l.(w := Done(l.w, op).0);
    match op {
      case File(kind, data) => FiledKeeps(l.w.ids, kind, data);
      case Drop(id, kind) => WithoutKeeps(l.w.ids, id, kind);
    }
    ListChanged(l, p, l'.w.ids);
    assert InStep(l, p, 0);
    InStepElsewhere(l, p, l', p, 1, 0);
    FollowsOn(l, p, l', p, results, 0);
  }

  // ---- Whole runs ----

  function Run(l: Lanes, steps: seq<Step>): seq<Option<Out>>
    decreases |steps|
  {
    if steps == [] then [] else [Stepped(l, steps[0]).1] + Run(Stepped(l, steps[0]).0, steps[1..])
  }

  function Iterate(p: Plain, results: map<nat, seq<Fields>>, steps: seq<Step>): seq<Option<Out>>
    decreases |steps|
  {
    if steps == [] then []
    else [Moves(p, results, steps[0]).1] + Iterate(Moves(p, results, steps[0]).0, results, steps[1..])
  }

  lemma StepAgrees(l: Lanes, p: Plain, results: map<nat, seq<Fields>>, step: Step)
    requires Follows(l, p, results) && StepOk(step, p.pos.Keys, results)
    ensures Agrees(l, p, results, step)
  {
    match step
    case Start(x, res, names) => StartAgrees(l, p, results, x, res, names);
    case Look(c) => LookAgrees(l, p, results, c);
    case Take(c) => TakeAgrees(l, p, results, c);
    case End(c) => EndAgrees(l, p, results, c);
    case Outside(op) => OutsideAgrees(l, p, results, op);
  }

  /** However the parts of the fetches of any number of channels interleave, each fetch reports exactly what
      the plain iterator of its status variable would. */
  lemma {:induction false} LockedRunRefines(
    l: Lanes, p: Plain, results: map<nat, seq<Fields>>, steps: seq<Step>)
    requires Follows(l, p, results)
    requires forall k :: 0 <= k < |steps| ==> StepOk(steps[k], p.pos.Keys, results)
    ensures Run(l, steps) == Iterate(p, results, steps)
    decreases |steps|
  {
    if steps == [] {
    } else {
      StepAgrees(l, p, results, steps[0]);
      LockedRunRefines(Stepped(l, steps[0]).0, Moves(p, results, steps[0]).0, results, steps[1..]);
    }
  }

  /** Channels that have not fetched yet follow iterators at their first rows. */
  lemma FreshFollows(ids: seq<Entry>, pos: map<Status, nat>, results: map<nat, seq<Fields>>)
    requires ListOk(ids) && Holds(ids, results) && forall x, y :: x in pos && y in pos ==> Apart(x, y)
    requires forall x :: x in pos ==> pos[x] == 0
    ensures Follows(Lanes(World(ids, map[]), map[]), Plain(pos, map[]), results)
  {
  }

  // ---- Columns ----

  /** The end of a fetch delivers the row the iterator stands at, whatever other channels did meanwhile. */
  lemma EndDelivers(l: Lanes, p: Plain, c: Chan)
    requires InStep(l, p, c) && StageOf(l, c).Taken?
    ensures var Taken(x, rows, names, _) := StageOf(l, c);
            DeliversTo(l.w, Ended(l, c).0.w, x, names, RowAt(rows, p.pos[x]))
  {
    var Taken(x, rows, names, i) := StageOf(l, c);
    var vars := View(l.w, c).vars;
    AtoiDecimal(0);
    AtoiDecimal(MaxId(l.w.ids) + 1);
    if i < |rows| {
      DeliveredBy(vars, vars, x.name, MaxId(l.w.ids) + 1, names, rows[i]);
    } else {
      DeliveredBy(vars, vars, x.name, 0, names, []);
    }
  }

  /** The code and the iterators after the first k steps. */
  function LanesAt(l: Lanes, steps: seq<Step>, k: nat): Lanes
    requires k <= |steps|
  {
    if k == 0 then l else Stepped(LanesAt(l, steps, k - 1), steps[k - 1]).0
  }

  function PlainAt(p: Plain, results: map<nat, seq<Fields>>, steps: seq<Step>, k: nat): Plain
    requires k <= |steps|
  {
    if k == 0 then p else Moves(PlainAt(p, results, steps, k - 1), results, steps[k - 1]).0
  }

  lemma {:induction false} FollowsAt(l: Lanes, p: Plain, results: map<nat, seq<Fields>>, steps: seq<Step>, k: nat)
    requires Follows(l, p, results) && k <= |steps|
    requires forall j :: 0 <= j < |steps| ==> StepOk(steps[j], p.pos.Keys, results)
    ensures Follows(LanesAt(l, steps, k), PlainAt(p, results, steps, k), results)
    ensures PlainAt(p, results, steps, k).pos.Keys == p.pos.Keys
  {
    if k == 0 {
    } else {
      FollowsAt(l, p, results, steps, k - 1);
      StepAgrees(LanesAt(l, steps, k - 1), PlainAt(p, results, steps, k - 1), results, steps[k - 1]);
    }
  }

  /** However the parts of fetches interleave, a fetch that ends puts the columns of the row its iterator stands
      at, of the result it was asked for, into the variables it names. */
  lemma LockedColumns(l: Lanes, p: Plain, results: map<nat, seq<Fields>>, steps: seq<Step>, k: nat, c: Chan)
    requires Follows(l, p, results) && k < |steps| && steps[k] == End(c)
    requires forall j :: 0 <= j < |steps| ==> StepOk(steps[j], p.pos.Keys, results)
    requires var wish := WishOf(PlainAt(p, results, steps, k), c); wish.Wish? && wish.part == 3
    ensures var (wish, pos) := (WishOf(PlainAt(p, results, steps, k), c), PlainAt(p, results, steps, k).pos);
            && wish.x in pos
            && DeliversTo(LanesAt(l, steps, k).w, LanesAt(l, steps, k + 1).w, wish.x, wish.names,
                          RowAt(wish.rows, pos[wish.x]))
  {
    FollowsAt(l, p, results, steps, k);
    assert InStep(LanesAt(l, steps, k), PlainAt(p, results, steps, k), c);
    EndDelivers(LanesAt(l, steps, k), PlainAt(p, results, steps, k), c);
  }
}

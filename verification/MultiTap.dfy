/** DTMFToText: text entered on a telephone keypad.

    A batch of digits is read as runs of equal keys.  A run of a digit enters text according to the
    mode; "**" and a selector change the mode or edit; a lone "*" only separates runs; "#" ends. */
module MultiTap {
  import opened Common

  datatype Mode = Lower | Upper | Numeric | Symbol

  /** What the ten digit keys show, in the two alphabetic modes and in symbol mode. */
  datatype Faces = Faces(alpha: seq<string>, symbols: seq<string>)

  type Keypad = k: Faces |
    |k.alpha| == |k.symbols| == 10 && forall i :: 0 <= i < 10 ==> k.alpha[i] != [] && k.symbols[i] != []
    witness Faces(seq(10, _ => " "), seq(10, _ => " "))

  const KEYPAD: Keypad := Faces(
    [" ,.?0", "!:;#1", "ABC2", "DEF3", "GHI4", "JKL5", "MNO6", "PQRS7", "TUV8", "WXYZ9"],
    ["=0", "<([{1", "@$&%2", ">)]}3", "+-*/4", "'`5", "\"6", "^7", "\\|8", "_~9"])

  /** The text entered so far, the mode, and whether entry is over. */
  datatype Pad = Pad(text: string, mode: Mode, done: bool)

  function Row(k: Keypad, mode: Mode, key: char): (row: string)
    requires IsDigit(key)
    ensures |row| > 0
  {
    match mode
    case Numeric => [key]
    case Symbol => k.symbols[key as int - '0' as int]
    case _ => k.alpha[key as int - '0' as int]
  }

  /** The character a key shows at a position of its row. */
  function Face(k: Keypad, mode: Mode, key: char, pos: nat): char
    requires IsDigit(key) && pos < |Row(k, mode, key)|
  {
    if mode == Lower then ToLower(Row(k, mode, key)[pos]) else Row(k, mode, key)[pos]
  }

  function Repeat(c: char, n: nat): (s: string)
    ensures |s| == n && forall i :: 0 <= i < n ==> s[i] == c
  {
    if n == 0 then [] else [c] + Repeat(c, n - 1)
  }

  /** What `hits` presses of a key enter. */
  function Entered(k: Keypad, mode: Mode, key: char, hits: nat): (s: string)
    requires IsDigit(key) && hits > 0
    ensures |s| > 0
  {
    if mode == Numeric then Repeat(key, hits) else [Face(k, mode, key, (hits - 1) % |Row(k, mode, key)|)]
  }

  function TrimSpaces(s: string): (t: string)
    ensures t <= s
  {
    if s != [] && s[|s| - 1] == ' ' then TrimSpaces(s[..|s| - 1]) else s
  }

  function TrimWord(s: string): (t: string)
    ensures t <= s
  {
    if s != [] && s[|s| - 1] != ' ' then TrimWord(s[..|s| - 1]) else s
  }

  /** The text left by deleting a word; a text of nothing but spaces keeps one of them. */
  function DeleteWord(s: string): string {
    if s != [] && TrimSpaces(s) == [] then " " else TrimWord(TrimSpaces(s))
  }

  predicate IsSelector(c: char) {
    c == '2' || c == '5' || c == '6' || c == '7' || c == '8' || c == '9' || c == '#'
  }

  function Select(p: Pad, c: char): Pad {
    match c
    case '2' => p.(text := if p.text == [] then [] else p.text[..|p.text| - 1])
    case '5' => p.(mode := Lower)
    case '6' => p.(mode := Numeric)
    case '7' => p.(mode := Symbol)
    case '8' => p.(mode := Upper)
    case '9' => p.(text := DeleteWord(p.text))
    case _ => p
  }

  function Press(k: Keypad, p: Pad, key: char, hits: nat, max: int): Pad
    requires IsDigit(key) && hits > 0
  {
    var text := p.text + Entered(k, p.mode, key, hits);
    p.(text := text, done := |text| >= max)
  }

  /** How many characters at the front of s equal the first. */
  function Run(s: string): (n: nat)
    requires s != []
    ensures 0 < n <= |s|
  {
    if |s| == 1 || s[1] != s[0] then 1 else 1 + Run(s[1..])
  }

  /** A block of n equal characters that does not go on is a run. */
  lemma {:induction false} RunIs(s: string, n: nat)
    requires 0 < n <= |s|
    requires forall i :: 0 <= i < n ==> s[i] == s[0]
    requires n < |s| ==> s[n] != s[0]
    ensures Run(s) == n
  {
    if n == 1 {
    } else {
      assert s[1] == s[0];
      forall i | 0 <= i < n - 1 ensures s[1..][i] == s[1..][0] { assert s[i + 1] == s[0]; }
      RunIs(s[1..], n - 1);
    }
  }

  /** Two stars and a selector are read together. */
  predicate Selects(s: string)
    requires s != []
  {
    s[0] == '*' && Run(s) == 2 && |s| > 2 && IsSelector(s[2])
  }

  /** The digits left when the first run of s, and with it a selector, has been read. */
  function Rest(s: string): (rest: string)
    requires s != []
    ensures |rest| < |s|
  {
    if Selects(s) then s[3..] else s[Run(s)..]
  }

  /** The pad after the first run of s. */
  function Acted(k: Keypad, s: string, p: Pad, max: int): Pad
    requires s != []
  {
    if Selects(s) then Select(p, s[2])
    else if s[0] == '#' then p.(done := true)
    else if IsDigit(s[0]) then Press(k, p, s[0], Run(s), max)
    else p
  }

  /** The pad after one batch of digits. */
  function Decode(k: Keypad, s: string, p: Pad, max: int): Pad
    decreases |s|
  {
    if s == [] || p.done then p else Decode(k, Rest(s), Acted(k, s, p, max), max)
  }

  // ---- The decoding loop ----

  /** "**9": step back over the spaces at the end, then over the word before them. */
  method WordBackspace(text: string) returns (t: nat)
    ensures t <= |text| && text[..t] == DeleteWord(text)
  {
    t := |text|;
    if t > 0 {
      t := t - 1;
      assert text[..t + 1] == text;
      while t > 0 && text[t] == ' '
        invariant t < |text|
        invariant TrimSpaces(text) == TrimSpaces(text[..t + 1])
      {
        assert text[..t + 1][..t] == text[..t];
        t := t - 1;
      }
      ghost var u := t;
      assert text[..u + 1][..u] == text[..u];
      assert TrimSpaces(text) == if text[u] == ' ' then [] else text[..u + 1];
      while t > 0 && text[t] != ' '
        invariant t <= u
        invariant text[u] != ' ' ==> TrimWord(text[..u + 1]) == TrimWord(text[..t + 1])
      {
        assert text[..t + 1][..t] == text[..t];
        t := t - 1;
      }
      assert text[..t + 1][..t] == text[..t];
      if text[t] == ' ' { t := t + 1; }
    }
  }

  /** Counts the presses of the key at position s. */
  method CountRun(digits: string, s: nat) returns (hits: nat)
    requires s < |digits|
    ensures hits == Run(digits[s..])
  {
    hits := 1;
    while s + hits < |digits| && digits[s + hits] == digits[s]
      invariant 0 < hits <= |digits| - s
      invariant forall i :: s <= i < s + hits ==> digits[i] == digits[s]
    {
      hits := hits + 1;
    }
    RunIs(digits[s..], hits);
  }

  /** What follows two stars: backspace, a mode, word-delete, or nothing for the text. */
  method ReadSelector(p0: Pad, c: char) returns (p: Pad)
    ensures p == Select(p0, c)
  {
    p := p0;
    match c {
      case '2' => if |p.text| > 0 { p := p.(text := p.text[..|p.text| - 1]); }
      case '5' => p := p.(mode := Lower);
      case '6' => p := p.(mode := Numeric);
      case '7' => p := p.(mode := Symbol);
      case '8' => p := p.(mode := Upper);
      case '9' =>
        var t := WordBackspace(p.text);
        p := p.(text := p.text[..t]);
      case _ =>
    }
  }

  lemma {:induction false} RepeatNext(c: char, n: nat)
    ensures Repeat(c, n) + [c] == Repeat(c, n + 1)
  {
    if n == 0 {
    } else {
      RepeatNext(c, n - 1);
      Associative([c], Repeat(c, n - 1), [c]);
    }
  }

  /** A run of a digit: in numeric mode one character a press, and one in all in the others; then the test
      against the limit. */
  method ReadDigit(k: Keypad, p0: Pad, x: char, hits: nat, max: int) returns (p: Pad)
    requires IsDigit(x) && hits > 0
    ensures p == Press(k, p0, x, hits, max)
  {
    var text := p0.text;
    if p0.mode == Numeric {
      var i := 1;
      while i < hits
        invariant 1 <= i <= hits && text == p0.text + Repeat(x, i - 1)
      {
        RepeatNext(x, i - 1);
        Associative(p0.text, Repeat(x, i - 1), [x]);
        text := text + [x];
        i := i + 1;
      }
      RepeatNext(x, hits - 1);
      Associative(p0.text, Repeat(x, hits - 1), [x]);
      text := text + [x];
    } else {
      var row := if p0.mode == Symbol then k.symbols[x as int - '0' as int] else k.alpha[x as int - '0' as int];
      var q := row[(hits - 1) % |row|];
      if p0.mode == Lower { q := ToLower(q); }
      text := text + [q];
    }
    p := p0.(text := text, done := |text| >= max);
  }

  /** Reads the run at position s, with the selector after it, and acts on it. */
  method ReadRun(k: Keypad, digits: string, s0: nat, p0: Pad, max: int) returns (p: Pad, s: nat)
    requires s0 < |digits|
    ensures s0 < s <= |digits|
    ensures p == Acted(k, digits[s0..], p0, max) && digits[s..] == Rest(digits[s0..])
  {
    var x := digits[s0];
    var hits := CountRun(digits, s0);
    p, s := p0, s0 + hits;
    assert digits[s0..][hits..] == digits[s..];
    if x == '*' {
      if hits == 2 && s < |digits| && IsSelector(digits[s]) {
        assert digits[s..][1..] == digits[s + 1..];
        p := ReadSelector(p, digits[s]);
        s := s + 1;
      }
    } else if x == '#' {
      p := p.(done := true);
    } else if IsDigit(x) {
      p := ReadDigit(k, p, x, hits, max);
    }
  }

  /** One batch, as the loop of get_input_text reads it. */
  method DecodeBatch(k: Keypad, digits: string, p0: Pad, max: int) returns (p: Pad)
    ensures p == Decode(k, digits, p0, max)
  {
    p := p0;
    var s := 0;
    assert digits[0..] == digits;
    while s < |digits| && !p.done
      invariant s <= |digits|
      invariant Decode(k, digits, p0, max) == Decode(k, digits[s..], p, max)
    {
      p, s := ReadRun(k, digits, s, p, max);
    }
  }

  // ---- Round trip ----

  /** One entry of a plan: which key to press in which mode, and how often. */
  datatype Tap = Tap(mode: Mode, key: char, hits: nat)

  predicate TapOk(t: Tap) {
    IsDigit(t.key) && t.hits > 0
  }

  predicate PlanOk(plan: seq<Tap>) {
    forall i :: 0 <= i < |plan| ==> TapOk(plan[i])
  }

  function Spells(k: Keypad, plan: seq<Tap>): string
    requires PlanOk(plan)
  {
    if plan == [] then []
    else
      assert TapOk(plan[0]);
      Entered(k, plan[0].mode, plan[0].key, plan[0].hits) + Spells(k, plan[1..])
  }

  function Selector(mode: Mode): char {
    match mode case Lower => '5' case Numeric => '6' case Symbol => '7' case Upper => '8'
  }

  /** The digits that carry out a plan: a mode switch where the mode changes, a lone star between two
      runs of one key, and a hash at the end. */
  function Digits(plan: seq<Tap>, mode: Mode, last: Option<char>): string
    requires PlanOk(plan)
  {
    if plan == [] then "#"
    else
      var t := plan[0];
      (if t.mode != mode then ['*', '*', Selector(t.mode)] else if last == Some(t.key) then "*" else "")
      + Repeat(t.key, t.hits) + Digits(plan[1..], t.mode, Some(t.key))
  }

  lemma RunOfRepeat(c: char, n: nat, rest: string)
    requires n > 0 && (rest == [] || rest[0] != c)
    ensures Run(Repeat(c, n) + rest) == n && (Repeat(c, n) + rest)[n..] == rest
  {
    RunIs(Repeat(c, n) + rest, n);
  }

  lemma DigitsStart(plan: seq<Tap>, mode: Mode, last: char)
    requires PlanOk(plan)
    requires IsDigit(last)
    ensures Digits(plan, mode, Some(last)) != [] && Digits(plan, mode, Some(last))[0] != last
  {
  }

  /** A run of digits presses its key, whatever follows that is not the same key. */
  lemma DecodeTap(k: Keypad, key: char, hits: nat, rest: string, p: Pad, max: int)
    requires IsDigit(key) && hits > 0 && !p.done && (rest == [] || rest[0] != key)
    ensures Decode(k, Repeat(key, hits) + rest, p, max) == Decode(k, rest, Press(k, p, key, hits, max), max)
  {
    RunOfRepeat(key, hits, rest);
    var s := Repeat(key, hits) + rest;
    assert s[0] == key;
  }

  lemma DecodeSwitch(k: Keypad, c: char, rest: string, p: Pad, max: int)
    requires IsSelector(c) && !p.done
    ensures Decode(k, ['*', '*', c] + rest, p, max) == Decode(k, rest, Select(p, c), max)
  {
    RunOfRepeat('*', 2, [c] + rest);
    assert Repeat('*', 2) == "**";
    assert ['*', '*', c] + rest == Repeat('*', 2) + ([c] + rest);
    assert ([c] + rest)[1..] == rest;
  }

  lemma DecodeStar(k: Keypad, rest: string, p: Pad, max: int)
    requires !p.done && (rest == [] || rest[0] != '*')
    ensures Decode(k, "*" + rest, p, max) == Decode(k, rest, p, max)
  {
  }

  /** What comes before a run of taps only puts the pad into the right mode. */
  lemma DecodeLeadIn(k: Keypad, plan: seq<Tap>, p: Pad, last: Option<char>, max: int)
    requires PlanOk(plan) && plan != [] && !p.done
    ensures var t := plan[0];
            Decode(k, Digits(plan, p.mode, last), p, max)
            == Decode(k, Repeat(t.key, t.hits) + Digits(plan[1..], t.mode, Some(t.key)), p.(mode := t.mode), max)
  {
    var t := plan[0];
    assert TapOk(t);
    var taps := Repeat(t.key, t.hits) + Digits(plan[1..], t.mode, Some(t.key));
    if t.mode != p.mode {
      assert Digits(plan, p.mode, last) == ['*', '*', Selector(t.mode)] + taps;
      assert Select(p, Selector(t.mode)) == p.(mode := t.mode);
      DecodeSwitch(k, Selector(t.mode), taps, p, max);
    } else {
      assert p.(mode := t.mode) == p;
      if last == Some(t.key) {
        assert taps[0] == t.key;
        assert Digits(plan, p.mode, last) == "*" + taps;
        DecodeStar(k, taps, p, max);
      } else {
        assert Digits(plan, p.mode, last) == taps;
      }
    }
  }

  /** The digits of one entry of a plan press its key in its mode. */
  lemma DecodeEntry(k: Keypad, plan: seq<Tap>, p: Pad, last: Option<char>, max: int)
    requires PlanOk(plan) && plan != [] && !p.done && TapOk(plan[0])
    ensures var t := plan[0];
            Decode(k, Digits(plan, p.mode, last), p, max)
            == Decode(k, Digits(plan[1..], t.mode, Some(t.key)), Press(k, p.(mode := t.mode), t.key, t.hits, max), max)
  {
    var t := plan[0];
    DecodeLeadIn(k, plan, p, last, max);
    DigitsStart(plan[1..], t.mode, t.key);
    DecodeTap(k, t.key, t.hits, Digits(plan[1..], t.mode, Some(t.key)), p.(mode := t.mode), max);
  }

  function LastMode(plan: seq<Tap>, mode: Mode): Mode {
    if plan == [] then mode else LastMode(plan[1..], plan[0].mode)
  }

  /** Carrying out a plan enters exactly the text it spells. */
  lemma {:induction false} PlanRoundTrip(k: Keypad, plan: seq<Tap>, p: Pad, last: Option<char>, max: int)
    requires PlanOk(plan) && !p.done && |p.text| + |Spells(k, plan)| <= max
    ensures Decode(k, Digits(plan, p.mode, last), p, max) == Pad(p.text + Spells(k, plan), LastMode(plan, p.mode), true)
  {
    if plan == [] {
      assert Run("#") == 1;
    } else {
      var t := plan[0];
      assert TapOk(t);
      DecodeEntry(k, plan, p, last, max);
      var q, rest := Press(k, p.(mode := t.mode), t.key, t.hits, max), plan[1..];
      Associative(p.text, Entered(k, t.mode, t.key, t.hits), Spells(k, rest));
      if q.done {
        FullPlanIsOver(k, rest);
      } else {
        PlanRoundTrip(k, rest, q, Some(t.key), max);
      }
    }
  }

  /** A plan that spells nothing is empty. */
  lemma FullPlanIsOver(k: Keypad, plan: seq<Tap>)
    requires PlanOk(plan)
    ensures Spells(k, plan) == [] ==> plan == []
  {
  }

  /** The character can be entered at all. */
  ghost predicate Typable(k: Keypad, c: char) {
    exists mode: Mode, key: char, pos: nat :: IsDigit(key) && pos < |Row(k, mode, key)| && Face(k, mode, key, pos) == c
  }

  /** Looks for c from position pos of a key of one mode, then on the keys after it. */
  function Search(k: Keypad, mode: Mode, c: char, key: char, pos: nat): (r: Option<Tap>)
    requires IsDigit(key) && pos <= |Row(k, mode, key)|
    ensures r.Some? ==> TapOk(r.value)
    decreases '9' as int - key as int, |Row(k, mode, key)| - pos
  {
    if pos < |Row(k, mode, key)| then
      if Face(k, mode, key, pos) == c then Some(Tap(mode, key, pos + 1)) else Search(k, mode, c, key, pos + 1)
    else if key < '9' then Search(k, mode, c, key + 1 as char, 0)
    else None
  }

  function Locate(k: Keypad, c: char): (r: Option<Tap>)
    ensures r.Some? ==> TapOk(r.value)
  {
    if Search(k, Numeric, c, '0', 0).Some? then Search(k, Numeric, c, '0', 0)
    else if Search(k, Lower, c, '0', 0).Some? then Search(k, Lower, c, '0', 0)
    else if Search(k, Upper, c, '0', 0).Some? then Search(k, Upper, c, '0', 0)
    else Search(k, Symbol, c, '0', 0)
  }

  lemma EnteredAt(k: Keypad, mode: Mode, key: char, pos: nat)
    requires IsDigit(key) && pos < |Row(k, mode, key)|
    ensures Entered(k, mode, key, pos + 1) == [Face(k, mode, key, pos)]
  {
    if mode == Numeric {
      assert Repeat(key, 1) == [key];
    } else {
      assert pos % |Row(k, mode, key)| == pos;
    }
  }

  /** What is found enters the character looked for. */
  lemma {:induction false} SearchEnters(k: Keypad, mode: Mode, c: char, key: char, pos: nat)
    requires IsDigit(key) && pos <= |Row(k, mode, key)|
    ensures var r := Search(k, mode, c, key, pos);
            r.Some? ==> Entered(k, r.value.mode, r.value.key, r.value.hits) == [c]
    decreases '9' as int - key as int, |Row(k, mode, key)| - pos
  {
    if pos < |Row(k, mode, key)| {
      EnteredAt(k, mode, key, pos);
      if Face(k, mode, key, pos) != c { SearchEnters(k, mode, c, key, pos + 1); }
    } else if key < '9' {
      SearchEnters(k, mode, c, key + 1 as char, 0);
    }
  }

  lemma LocateEnters(k: Keypad, c: char)
    requires Locate(k, c).Some?
    ensures var t := Locate(k, c).value; Entered(k, t.mode, t.key, t.hits) == [c]
  {
    SearchEnters(k, Numeric, c, '0', 0);
    SearchEnters(k, Lower, c, '0', 0);
    SearchEnters(k, Upper, c, '0', 0);
    SearchEnters(k, Symbol, c, '0', 0);
  }

  lemma {:induction false} SearchFinds(k: Keypad, mode: Mode, c: char, key: char, pos: nat, key': char, pos': nat)
    requires IsDigit(key) && pos <= |Row(k, mode, key)| && IsDigit(key') && pos' < |Row(k, mode, key')|
    requires key < key' || (key == key' && pos <= pos')
    requires Face(k, mode, key', pos') == c
    ensures Search(k, mode, c, key, pos).Some?
    decreases '9' as int - key as int, |Row(k, mode, key)| - pos
  {
    if pos < |Row(k, mode, key)| {
      if Face(k, mode, key, pos) != c { SearchFinds(k, mode, c, key, pos + 1, key', pos'); }
    } else {
      SearchFinds(k, mode, c, key + 1 as char, 0, key', pos');
    }
  }

  lemma LocateFinds(k: Keypad, c: char)
    requires Typable(k, c)
    ensures Locate(k, c).Some?
  {
    var mode: Mode, key: char, pos: nat :| IsDigit(key) && pos < |Row(k, mode, key)| && Face(k, mode, key, pos) == c;
    SearchFinds(k, mode, c, '0', 0, key, pos);
  }

  /** A plan that spells a text. */
  function Plan(k: Keypad, text: string): (plan: seq<Tap>)
    requires forall c :: c in text ==> Locate(k, c).Some?
    ensures PlanOk(plan)
  {
    if text == [] then [] else [Locate(k, text[0]).value] + Plan(k, text[1..])
  }

  lemma {:induction false} PlanSpells(k: Keypad, text: string)
    requires forall c :: c in text ==> Locate(k, c).Some?
    ensures Spells(k, Plan(k, text)) == text
  {
    if text == [] {
    } else {
      LocateEnters(k, text[0]);
      PlanSpells(k, text[1..]);
    }
  }

  /** Every text over the key tables that fits is decoded back from its encoding. */
  lemma RoundTrip(k: Keypad, text: string, max: int)
    requires forall c :: c in text ==> Typable(k, c)
    requires |text| <= max
    ensures (forall c :: c in text ==> Locate(k, c).Some?)
    ensures Decode(k, Digits(Plan(k, text), Numeric, None), Pad([], Numeric, false), max).text == text
  {
    forall c | c in text ensures Locate(k, c).Some? { LocateFinds(k, c); }
    PlanSpells(k, text);
    PlanRoundTrip(k, Plan(k, text), Pad([], Numeric, false), None, max);
  }

  // ---- Editing ----

  /** "**2" after a run takes back what the run entered exactly when the run entered one character and
      did not use up the room: in numeric mode a run of several presses leaves all but one behind. */
  lemma BackspaceUndoes(k: Keypad, p: Pad, key: char, hits: nat, max: int)
    requires !p.done && IsDigit(key) && hits > 0
    ensures Decode(k, Repeat(key, hits) + "**2", p, max) == p
            <==> (p.mode != Numeric || hits == 1) && |p.text| + 1 < max
  {
    var q := Press(k, p, key, hits, max);
    DecodeTap(k, key, hits, "**2", p, max);
    assert "**2" == ['*', '*', '2'] + [];
    if !q.done {
      DecodeSwitch(k, '2', [], q, max);
      assert Decode(k, [], Select(q, '2'), max) == Select(q, '2');
      var n := |Entered(k, p.mode, key, hits)|;
      assert q.text[..|q.text| - 1] == p.text + Entered(k, p.mode, key, hits)[..n - 1];
      if n > 1 { assert |q.text| - 1 > |p.text|; }
    }
  }

  ghost predicate AllSpaces(s: string) {
    forall i :: 0 <= i < |s| ==> s[i] == ' '
  }

  /** Two presses in numeric mode are not taken back by one backspace. */
  lemma BackspaceFails(k: Keypad)
    ensures Decode(k, "22**2", Pad([], Numeric, false), 10) != Pad([], Numeric, false)
  {
    BackspaceUndoes(k, Pad([], Numeric, false), '2', 2, 10);
    assert Repeat('2', 2) == "22";
    assert "22" + "**2" == "22**2";
  }

  lemma {:induction false} TrimSpacesMeaning(s: string)
    ensures AllSpaces(s[|TrimSpaces(s)|..])
    ensures TrimSpaces(s) == [] || TrimSpaces(s)[|TrimSpaces(s)| - 1] != ' '
  {
    if s == [] || s[|s| - 1] != ' ' {
    } else {
      var f := s[..|s| - 1];
      TrimSpacesMeaning(f);
      assert s[|TrimSpaces(f)|..] == f[|TrimSpaces(f)|..] + " ";
    }
  }

  /** Only a text of spaces is trimmed to nothing. */
  lemma TrimSpacesEmpty(s: string)
    ensures TrimSpaces(s) == [] <==> AllSpaces(s)
  {
  }

  lemma {:induction false} TrimWordMeaning(s: string)
    ensures ' ' !in s[|TrimWord(s)|..]
    ensures TrimWord(s) == [] || TrimWord(s)[|TrimWord(s)| - 1] == ' '
    ensures s != [] && s[|s| - 1] != ' ' ==> |TrimWord(s)| < |s|
  {
    if s == [] || s[|s| - 1] == ' ' {
    } else {
      var f := s[..|s| - 1];
      TrimWordMeaning(f);
      assert s[|TrimWord(f)|..] == f[|TrimWord(f)|..] + [s[|s| - 1]];
    }
  }

  /** "**9" on a text with something in it other than spaces removes exactly the last word and the spaces
      after it, leaving nothing or a text that ends in a space; a text of spaces only keeps one. */
  lemma DeleteWordMeaning(s: string)
    ensures !AllSpaces(s) ==>
      exists word, gap :: && s == DeleteWord(s) + word + gap
                          && word != [] && ' ' !in word && AllSpaces(gap)
                          && (DeleteWord(s) == [] || DeleteWord(s)[|DeleteWord(s)| - 1] == ' ')
    ensures AllSpaces(s) ==> DeleteWord(s) == if s == [] then [] else " "
  {
    TrimSpacesMeaning(s);
    TrimSpacesEmpty(s);
    if !AllSpaces(s) {
      var body := TrimSpaces(s);
      TrimWordMeaning(body);
      var word, gap := body[|DeleteWord(s)|..], s[|body|..];
      assert s == DeleteWord(s) + word + gap;
    }
  }

  // ---- The limit on the text ----

  /** How many characters a run enters. */
  function Enters(mode: Mode, hits: nat): nat {
    if mode == Numeric then hits else 1
  }

  /** Some run read from s enters more than there is room for, which with room left only one in numeric mode
      can. */
  predicate Overshoots(k: Keypad, s: string, p: Pad, max: int)
    decreases |s|
  {
    if s == [] || p.done then false
    else
      || (IsDigit(s[0]) && |p.text| + Enters(p.mode, Run(s)) > max)
      || Overshoots(k, Rest(s), Acted(k, s, p, max), max)
  }

  lemma ActedLength(k: Keypad, s: string, p: Pad, max: int)
    requires s != [] && !p.done
    ensures var q := Acted(k, s, p, max);
            if IsDigit(s[0]) then |q.text| == |p.text| + Enters(p.mode, Run(s)) && (q.done <==> |q.text| >= max)
            else |q.text| <= |p.text|
  {
  }

  /** A batch leaves the text within the limit exactly when none of its runs enters more than there is room
      for: the limit is tested only after a whole run. */
  lemma {:induction false} WithinLimitIff(k: Keypad, s: string, p: Pad, max: int)
    requires |p.text| <= max
    ensures |Decode(k, s, p, max).text| <= max <==> !Overshoots(k, s, p, max)
    decreases |s|
  {
    if s == [] || p.done {
    } else {
      var q := Acted(k, s, p, max);
      ActedLength(k, s, p, max);
      if |q.text| <= max { WithinLimitIff(k, Rest(s), q, max); }
    }
  }

  /** The longest run of equal digits. */
  function Longest(s: string): nat
    decreases |s|
  {
    if s == [] then 0
    else
      var rest := Longest(s[Run(s)..]);
      if Run(s) < rest then rest else Run(s)
  }

  /** A digit taken off the front makes no run longer. */
  lemma LongestTail(s: string)
    requires s != []
    ensures Longest(s[1..]) <= Longest(s)
  {
  }

  lemma LongestRest(s: string)
    requires s != []
    ensures Run(s) <= Longest(s) && Longest(Rest(s)) <= Longest(s)
  {
    if Selects(s) {
      assert s[2..][1..] == s[3..];
      LongestTail(s[2..]);
    }
  }

  /** A batch that begins below the limit goes on below it or is over, and ends less than its longest run
      above it. */
  lemma {:induction false} TextStaysInRange(k: Keypad, s: string, p: Pad, max: int)
    requires !p.done && |p.text| < max
    ensures var q := Decode(k, s, p, max);
            (!q.done ==> |q.text| < max) && |q.text| < max + if s == [] then 1 else Longest(s)
    decreases |s|
  {
    if s == [] {
    } else {
      var q := Acted(k, s, p, max);
      ActedLength(k, s, p, max);
      LongestRest(s);
      if !q.done { TextStaysInRange(k, Rest(s), q, max); }
    }
  }

  /** Three presses in numeric mode enter three characters where there is room for one. */
  lemma LimitOvershot()
    ensures |Decode(KEYPAD, "222", Pad("0", Numeric, false), 2).text| == 4
  {
  }

  // ---- Whole entries ----

  /** Batch after batch, until entry is over. */
  function Session(k: Keypad, batches: seq<string>, p: Pad, max: int): Pad
    decreases |batches|
  {
    if batches == [] || p.done then p else Session(k, batches[1..], Decode(k, batches[0], p, max), max)
  }

  predicate SomeOvershoots(k: Keypad, batches: seq<string>, p: Pad, max: int)
    decreases |batches|
  {
    if batches == [] || p.done then false
    else
      Overshoots(k, batches[0], p, max) || SomeOvershoots(k, batches[1..], Decode(k, batches[0], p, max), max)
  }

  lemma {:induction false} OvershotIsOver(k: Keypad, s: string, p: Pad, max: int)
    requires Overshoots(k, s, p, max)
    ensures Decode(k, s, p, max).done && |Decode(k, s, p, max).text| > max
    decreases |s|
  {
    var q := Acted(k, s, p, max);
    ActedLength(k, s, p, max);
    if IsDigit(s[0]) && |p.text| + Enters(p.mode, Run(s)) > max {
    } else {
      OvershotIsOver(k, Rest(s), q, max);
    }
  }

  lemma {:induction false} SessionWithin(k: Keypad, batches: seq<string>, p: Pad, max: int)
    requires |p.text| <= max
    ensures |Session(k, batches, p, max).text| <= max <==> !SomeOvershoots(k, batches, p, max)
    decreases |batches|
  {
    if batches == [] || p.done {
    } else {
      var q := Decode(k, batches[0], p, max);
      WithinLimitIff(k, batches[0], p, max);
      if Overshoots(k, batches[0], p, max) {
        OvershotIsOver(k, batches[0], p, max);
      } else {
        SessionWithin(k, batches[1..], q, max);
      }
    }
  }

  /** Whatever is typed in however many batches, and whatever the limit, the text entered is within it exactly
      when no run entered more than there was room for. */
  lemma SessionWithinIff(k: Keypad, batches: seq<string>, max: int)
    ensures |Session(k, batches, Pad([], Numeric, false), max).text| <= max
            <==> 0 <= max && !SomeOvershoots(k, batches, Pad([], Numeric, false), max)
  {
    if 0 <= max { SessionWithin(k, batches, Pad([], Numeric, false), max); }
  }

  // ---- What the keys enter ----

  function DigitOf(key: char): nat
    requires IsDigit(key)
  {
    key as int - '0' as int
  }

  /** What a run of one key types on an empty pad. */
  function Typed(k: Keypad, mode: Mode, key: char, hits: nat, max: int): string {
    Decode(k, Repeat(key, hits), Pad([], mode, false), max).text
  }

  lemma TypedIs(k: Keypad, mode: Mode, key: char, hits: nat, max: int)
    requires IsDigit(key) && hits > 0
    ensures Typed(k, mode, key, hits, max) == Press(k, Pad([], mode, false), key, hits, max).text
  {
    DecodeTap(k, key, hits, [], Pad([], mode, false), max);
    assert Repeat(key, hits) + [] == Repeat(key, hits);
  }

  /** In upper case a run types the letter on the key that the presses count to, in symbol mode the symbol, in
      lower case the small letter, and in numeric mode the digit, once for each press. */
  lemma TypedMeaning(k: Keypad, key: char, hits: nat, max: int)
    requires IsDigit(key) && hits > 0
    ensures var (alpha, symbols) := (k.alpha[DigitOf(key)], k.symbols[DigitOf(key)]);
            && Typed(k, Upper, key, hits, max) == [alpha[(hits - 1) % |alpha|]]
            && Typed(k, Lower, key, hits, max) == [ToLower(alpha[(hits - 1) % |alpha|])]
            && Typed(k, Symbol, key, hits, max) == [symbols[(hits - 1) % |symbols|]]
            && |Typed(k, Numeric, key, hits, max)| == hits
            && forall i :: 0 <= i < hits ==> Typed(k, Numeric, key, hits, max)[i] == key
  {
    TypedIs(k, Upper, key, hits, max);
    TypedIs(k, Lower, key, hits, max);
    TypedIs(k, Symbol, key, hits, max);
    TypedIs(k, Numeric, key, hits, max);
  }

  /** No capital is typed in lower case, and the capitals typed in upper case come out small in lower case. */
  lemma LowerHasNoCapitals(k: Keypad, key: char, hits: nat, max: int)
    requires IsDigit(key) && hits > 0
    ensures forall c :: c in Typed(k, Lower, key, hits, max) ==> !('A' <= c <= 'Z')
    ensures |Typed(k, Upper, key, hits, max)| == |Typed(k, Lower, key, hits, max)| == 1
    ensures var (large, small) := (Typed(k, Upper, key, hits, max)[0], Typed(k, Lower, key, hits, max)[0]);
            small as int == large as int + if 'A' <= large <= 'Z' then 32 else 0
  {
    TypedMeaning(k, key, hits, max);
  }

  /** Presses go round the key: as many more as it has letters type the same. */
  lemma PressesGoRound(k: Keypad, key: char, hits: nat, max: int)
    requires IsDigit(key) && hits > 0
    ensures Typed(k, Upper, key, hits + |k.alpha[DigitOf(key)]|, max) == Typed(k, Upper, key, hits, max)
    ensures Typed(k, Lower, key, hits + |k.alpha[DigitOf(key)]|, max) == Typed(k, Lower, key, hits, max)
    ensures Typed(k, Symbol, key, hits + |k.symbols[DigitOf(key)]|, max) == Typed(k, Symbol, key, hits, max)
  {
    var (n, m) := (|k.alpha[DigitOf(key)]|, |k.symbols[DigitOf(key)]|);
    TypedMeaning(k, key, hits, max);
    TypedMeaning(k, key, hits + n, max);
    TypedMeaning(k, key, hits + m, max);
    RoundOnce(hits - 1, n);
    RoundOnce(hits - 1, m);
  }

  lemma RoundOnce(i: nat, n: nat)
    requires n > 0
    ensures (i + n) % n == i % n
  {
    var (q, q') := (i / n, (i + n) / n);
    assert n * (q + 1) == n * q + n;
    NoMultipleWithin(n, q + 1 - q');
  }

  /** No multiple of n other than zero lies strictly between -n and n. */
  lemma NoMultipleWithin(n: int, m: int)
    requires -n < n * m < n
    ensures m == 0
  {
  }

  /** "**5" is lower case, "**6" numbers, "**7" symbols and "**8" upper case, and none of them touches the text. */
  lemma ModesMeaning(k: Keypad, p: Pad, max: int)
    requires !p.done
    ensures Decode(k, "**5", p, max) == p.(mode := Lower) && Decode(k, "**6", p, max) == p.(mode := Numeric)
    ensures Decode(k, "**7", p, max) == p.(mode := Symbol) && Decode(k, "**8", p, max) == p.(mode := Upper)
    ensures Decode(k, "**#", p, max) == p && Decode(k, "#", p, max) == p.(done := true)
  {
    ModeIs(k, '5', p, max);
    ModeIs(k, '6', p, max);
    ModeIs(k, '7', p, max);
    ModeIs(k, '8', p, max);
    ModeIs(k, '#', p, max);
    assert "**5" == ['*', '*', '5'] && "**6" == ['*', '*', '6'] && "**7" == ['*', '*', '7'];
    assert "**8" == ['*', '*', '8'] && "**#" == ['*', '*', '#'];
    assert Run("#") == 1;
  }

  lemma ModeIs(k: Keypad, c: char, p: Pad, max: int)
    requires !p.done && IsSelector(c)
    ensures Decode(k, ['*', '*', c], p, max) == Select(p, c)
  {
    DecodeSwitch(k, c, [], p, max);
    assert ['*', '*', c] + [] == ['*', '*', c];
  }

  /** A mode chosen is the mode typed in, and a hash after it adds nothing. */
  lemma ModeThenKey(k: Keypad, mode: Mode, key: char, hits: nat, max: int)
    requires IsDigit(key) && hits > 0 && mode != Numeric
    ensures var s := ['*', '*', match mode case Lower => '5' case Symbol => '7' case _ => '8'];
            Decode(k, s + (Repeat(key, hits) + "#"), Pad([], Numeric, false), max).text
            == Typed(k, mode, key, hits, max)
  {
    var c := match mode case Lower => '5' case Symbol => '7' case _ => '8';
    DecodeSwitch(k, c, Repeat(key, hits) + "#", Pad([], Numeric, false), max);
    DecodeTap(k, key, hits, "#", Pad([], mode, false), max);
    TypedIs(k, mode, key, hits, max);
    assert Run("#") == 1;
  }

  /** What one to n presses of a key type in upper case. */
  function Spread(k: Keypad, key: char, n: nat, max: int): string {
    if n == 0 then [] else Spread(k, key, n - 1, max) + Typed(k, Upper, key, n, max)
  }

  lemma TypedAt(k: Keypad, key: char, n: nat, max: int)
    requires IsDigit(key) && 0 < n <= |k.alpha[DigitOf(key)]|
    ensures Typed(k, Upper, key, n, max) == [k.alpha[DigitOf(key)][n - 1]]
  {
    TypedMeaning(k, key, n, max);
    SmallMod(n - 1, |k.alpha[DigitOf(key)]|);
  }

  lemma SmallMod(i: nat, n: nat)
    requires i < n
    ensures i % n == i
  {
  }

  lemma {:induction false} SpreadIs(k: Keypad, key: char, n: nat, max: int)
    requires IsDigit(key) && n <= |k.alpha[DigitOf(key)]|
    ensures Spread(k, key, n, max) == k.alpha[DigitOf(key)][..n]
  {
    if n == 0 {
    } else {
      SpreadIs(k, key, n - 1, max);
      TypedAt(k, key, n, max);
      var row := k.alpha[DigitOf(key)];
      assert row[..n] == row[..n - 1] + [row[n - 1]];
    }
  }

  /** The letters on the keys 2 to 9. */
  lemma Letters()
    ensures KEYPAD.alpha[2] == "ABC2" && KEYPAD.alpha[3] == "DEF3" && KEYPAD.alpha[4] == "GHI4"
    ensures KEYPAD.alpha[5] == "JKL5" && KEYPAD.alpha[6] == "MNO6" && KEYPAD.alpha[7] == "PQRS7"
    ensures KEYPAD.alpha[8] == "TUV8" && KEYPAD.alpha[9] == "WXYZ9"
  {
  }

  /** In upper case the keys 2 to 9, pressed once, twice and so on, type the alphabet in order. */
  lemma AlphabetInOrder(max: int)
    ensures Spread(KEYPAD, '2', 3, max) == "ABC" && Spread(KEYPAD, '3', 3, max) == "DEF"
    ensures Spread(KEYPAD, '4', 3, max) == "GHI" && Spread(KEYPAD, '5', 3, max) == "JKL"
    ensures Spread(KEYPAD, '6', 3, max) == "MNO" && Spread(KEYPAD, '7', 4, max) == "PQRS"
    ensures Spread(KEYPAD, '8', 3, max) == "TUV" && Spread(KEYPAD, '9', 4, max) == "WXYZ"
  {
    Letters();
    SpreadSpells(KEYPAD, '2', "ABC", max);
    SpreadSpells(KEYPAD, '3', "DEF", max);
    SpreadSpells(KEYPAD, '4', "GHI", max);
    SpreadSpells(KEYPAD, '5', "JKL", max);
    SpreadSpells(KEYPAD, '6', "MNO", max);
    SpreadSpells(KEYPAD, '7', "PQRS", max);
    SpreadSpells(KEYPAD, '8', "TUV", max);
    SpreadSpells(KEYPAD, '9', "WXYZ", max);
  }

  lemma SpreadSpells(k: Keypad, key: char, word: string, max: int)
    requires IsDigit(key) && word <= k.alpha[DigitOf(key)]
    ensures Spread(k, key, |word|, max) == word
  {
    SpreadIs(k, key, |word|, max);
  }

  /** On every key, in either table, the digit of the key comes last: as many presses as it has letters type it. */
  lemma DigitLast(d: nat)
    requires d < 10
    ensures KEYPAD.alpha[d][|KEYPAD.alpha[d]| - 1] == DigitChar(d)
    ensures KEYPAD.symbols[d][|KEYPAD.symbols[d]| - 1] == DigitChar(d)
  {
    if d == 0 { } else if d == 1 { } else if d == 2 { } else if d == 3 { } else if d == 4 { }
    else if d == 5 { } else if d == 6 { } else if d == 7 { } else if d == 8 { } else { assert d == 9; }
  }

  /** On a keypad with A on its key 2, "**52#" types a small a and "**82#" a capital. */
  lemma TypesA(k: Keypad, max: int)
    requires k.alpha[2][0] == 'A'
    ensures Decode(k, "**52#", Pad([], Numeric, false), max).text == "a"
    ensures Decode(k, "**82#", Pad([], Numeric, false), max).text == "A"
  {
    ModeThenKey(k, Lower, '2', 1, max);
    ModeThenKey(k, Upper, '2', 1, max);
    TypedMeaning(k, '2', 1, max);
    assert 0 % |k.alpha[2]| == 0;
    assert ['*', '*', '5'] + (Repeat('2', 1) + "#") == "**52#";
    assert ['*', '*', '8'] + (Repeat('2', 1) + "#") == "**82#";
  }

  /** On the keypad there is. */
  lemma KeypadTypesA(max: int)
    ensures Decode(KEYPAD, "**52#", Pad([], Numeric, false), max).text == "a"
    ensures Decode(KEYPAD, "**82#", Pad([], Numeric, false), max).text == "A"
  {
    Letters();
    TypesA(KEYPAD, max);
  }
}

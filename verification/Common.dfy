/** Small pieces shared by the models: an optional value, a fact about sequences, C's decimal text. */
module Common {

  datatype Option<+T> = None | Some(value: T)

  lemma Associative<T>(a: seq<T>, b: seq<T>, c: seq<T>)
    ensures (a + b) + c == a + (b + c)
  {
  }

  /** tolower in the C locale. */
  function ToLower(c: char): char {
    if 'A' <= c <= 'Z' then c - 'A' + 'a' else c
  }

  /** Two texts are equal but for case: strcasecmp is 0. */
  predicate SameText(s: string, t: string) {
    |s| == |t| && forall i :: 0 <= i < |s| ==> ToLower(s[i]) == ToLower(t[i])
  }

  // ---- Decimal text, as printed by "%d" and read back by atoi and sscanf("%d") ----

  predicate IsDigit(c: char) {
    '0' <= c <= '9'
  }

  function DigitChar(d: nat): char
    requires d < 10
  {
    '0' + d as char
  }

  /** The text "%d" prints for a number that is not negative. */
  function Decimal(n: nat): (s: string)
    ensures |s| > 0 && forall i :: 0 <= i < |s| ==> IsDigit(s[i])
  {
    if n < 10 then [DigitChar(n)] else Decimal(n / 10) + [DigitChar(n % 10)]
  }

  /** The value of the longest run of digits at the front of s; 0 when there is none. */
  function DigitsValue(s: string, acc: nat): nat {
    if s == [] || !IsDigit(s[0]) then acc
    else DigitsValue(s[1..], 10 * acc + (s[0] as int - '0' as int))
  }

  /** atoi on text without leading blanks or sign. */
  function Atoi(s: string): nat {
    DigitsValue(s, 0)
  }

  /** The digits of a then those of b are read as one number. */
  lemma {:induction false} DigitsValueSnoc(s: string, d: nat, acc: nat)
    requires forall i :: 0 <= i < |s| ==> IsDigit(s[i])
    requires d < 10
    ensures DigitsValue(s + [DigitChar(d)], acc) == 10 * DigitsValue(s, acc) + d
  {
    var t := s + [DigitChar(d)];
    if s == [] {
      assert t[1..] == [];
    } else {
      assert t[1..] == s[1..] + [DigitChar(d)];
      DigitsValueSnoc(s[1..], d, 10 * acc + (s[0] as int - '0' as int));
    }
  }

  /** Reading back what "%d" printed gives the number printed. */
  lemma {:induction false} AtoiDecimal(n: nat)
    ensures Atoi(Decimal(n)) == n
  {
    if n < 10 {
      assert DigitsValue([], n) == n;
      assert Decimal(n)[1..] == [];
    } else {
      AtoiDecimal(n / 10);
      DigitsValueSnoc(Decimal(n / 10), n % 10, 0);
    }
  }

  /** Two numbers print alike only when they are equal. */
  lemma DecimalInjective(m: nat, n: nat)
    requires Decimal(m) == Decimal(n)
    ensures m == n
  {
    AtoiDecimal(m);
    AtoiDecimal(n);
  }

  /** The text "%d" prints for any number. */
  function PrintInt(n: int): string {
    if n < 0 then "-" + Decimal(-n) else Decimal(n)
  }

  /** What sscanf("%d") reads from text without leading blanks. */
  function ScanInt(s: string): Option<int> {
    if s != [] && IsDigit(s[0]) then Some(Atoi(s) as int)
    else if |s| > 1 && s[0] == '-' && IsDigit(s[1]) then Some(-(Atoi(s[1..]) as int))
    else None
  }

  lemma ScanPrint(n: int)
    ensures ScanInt(PrintInt(n)) == Some(n)
  {
    if n < 0 {
      AtoiDecimal(-n);
      assert PrintInt(n)[1..] == Decimal(-n);
    } else {
      AtoiDecimal(n);
    }
  }
}

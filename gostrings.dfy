/** The parts of Go's `strings` and `strconv` packages that the core uses,
    over `string` = `seq<char>`.  Case mapping is ASCII only. */
module GoStrings {
  import opened Wrappers

  // ---------------------------------------------------------------------
  // Characters

  predicate IsUpper(c: char) { 'A' <= c <= 'Z' }
  predicate IsLowerLetter(c: char) { 'a' <= c <= 'z' }
  predicate IsDigit(c: char) { '0' <= c <= '9' }
  predicate IsLetter(c: char) { IsUpper(c) || IsLowerLetter(c) }

  /** unicode.IsSpace: the ASCII white space, NEL, NBSP and the Unicode
      White_Space characters above U+00FF. */
  predicate IsSpace(c: char) {
    var n := c as int;
    n == 0x20 || (0x09 <= n <= 0x0D) || n == 0x85 || n == 0xA0
    || n == 0x1680 || (0x2000 <= n <= 0x200A) || n == 0x2028 || n == 0x2029
    || n == 0x202F || n == 0x205F || n == 0x3000
  }

  /** unicode.ToLower restricted to ASCII letters. */
  function Lower(c: char): (r: char)
    ensures !IsUpper(r)
    ensures IsLetter(c) <==> IsLetter(r)
    ensures !IsUpper(c) ==> r == c
  {
    if IsUpper(c) then (c as int + 32) as char else c
  }

  /** unicode.ToUpper (= ToTitle) restricted to ASCII letters. */
  function Upper(c: char): (r: char)
    ensures !IsLowerLetter(r)
    ensures IsLetter(c) <==> IsLetter(r)
    ensures !IsLowerLetter(c) ==> r == c
  {
    if IsLowerLetter(c) then (c as int - 32) as char else c
  }

  /** strings.ToLower, per character. */
  function ToLower(s: string): (r: string)
    ensures |r| == |s|
    ensures forall i :: 0 <= i < |s| ==> r[i] == Lower(s[i])
  {
    if |s| == 0 then "" else [Lower(s[0])] + ToLower(s[1..])
  }

  lemma ToLowerAppend(a: string, b: string)
    ensures ToLower(a + b) == ToLower(a) + ToLower(b)
  {
    assert ToLower(a + b) == ToLower(a) + ToLower(b);
  }

  // ---------------------------------------------------------------------
  // Searching and splitting on one separator character

  function Count(s: string, c: char): (n: nat)
    ensures n <= |s|
  {
    if |s| == 0 then 0 else (if s[0] == c then 1 else 0) + Count(s[1..], c)
  }

  lemma CountAppend(a: string, b: string, c: char)
    ensures Count(a + b, c) == Count(a, c) + Count(b, c)
  {
    if |a| == 0 {
      assert a + b == b;
    } else {
      assert (a + b)[1..] == a[1..] + b;
      CountAppend(a[1..], b, c);
    }
  }

  /** Index of the first occurrence of `c` in `s` (strings.IndexByte). */
  function IndexOf(s: string, c: char): (r: Option<nat>)
    ensures r.None? <==> c !in s
    ensures r.Some? ==> r.value < |s| && s[r.value] == c && c !in s[..r.value]
  {
    if |s| == 0 then None
    else if s[0] == c then Some(0)
    else match IndexOf(s[1..], c)
      case None => None
      case Some(i) =>
        assert s[..i + 1] == [s[0]] + s[1..][..i];
        Some(i + 1)
  }

  lemma IndexOfPrefix(a: string, c: char, b: string)
    requires c !in a
    ensures IndexOf(a + [c] + b, c) == Some(|a|)
  {
    var s := a + [c] + b;
    assert s[|a|] == c;
    assert s[..|a|] == a;
  }

  /** The text before the first `c` (the whole string when there is none). */
  function Before(s: string, c: char): (r: string)
    ensures c !in r
    ensures c !in s ==> r == s
  {
    match IndexOf(s, c)
    case None => s
    case Some(i) => s[..i]
  }

  /** The text after the first `c` (empty when there is none). */
  function After(s: string, c: char): (r: string)
  {
    match IndexOf(s, c)
    case None => ""
    case Some(i) => s[i + 1..]
  }

  lemma BeforeAfter(s: string, c: char)
    requires c in s
    ensures Before(s, c) + [c] + After(s, c) == s
  {
    var i := IndexOf(s, c).value;
    assert s == s[..i] + [c] + s[i + 1..];
  }

  /** strings.SplitN(s, sep, 2) for a one-character separator. */
  function SplitN2(s: string, sep: char): (parts: seq<string>)
    ensures sep !in s ==> parts == [s]
    ensures sep in s ==> parts == [Before(s, sep), After(s, sep)]
  {
    if sep in s then [Before(s, sep), After(s, sep)] else [s]
  }

  /** strings.Split(s, sep) for a one-character separator: never empty;
      an empty `s` gives `[""]`. */
  function Split(s: string, sep: char): (parts: seq<string>)
    ensures |parts| >= 1
    ensures |parts| == Count(s, sep) + 1
    ensures forall k :: 0 <= k < |parts| ==> sep !in parts[k]
    decreases |s|
  {
    match IndexOf(s, sep)
    case None =>
      CountAbsent(s, sep);
      [s]
    case Some(i) =>
      CountSplit(s[..i], sep, s[i + 1..]);
      assert s == s[..i] + [sep] + s[i + 1..];
      [s[..i]] + Split(s[i + 1..], sep)
  }

  lemma CountAbsent(s: string, c: char)
    requires c !in s
    ensures Count(s, c) == 0
  {
    if |s| > 0 { CountAbsent(s[1..], c); }
  }

  lemma CountSplit(a: string, c: char, b: string)
    requires c !in a
    ensures Count(a + [c] + b, c) == Count(b, c) + 1
  {
    if |a| == 0 {
      assert (a + [c] + b)[1..] == b;
    } else {
      assert (a + [c] + b)[1..] == a[1..] + [c] + b;
      CountSplit(a[1..], c, b);
    }
  }

  /** strings.Join(parts, sep) for a one-character separator. */
  function Join(parts: seq<string>, sep: string): string
  {
    if |parts| == 0 then ""
    else if |parts| == 1 then parts[0]
    else parts[0] + sep + Join(parts[1..], sep)
  }

  /** Joining the pieces of a split restores the input. */
  lemma {:induction false} JoinSplit(s: string, sep: char)
    ensures Join(Split(s, sep), [sep]) == s
    decreases |s|
  {
    match IndexOf(s, sep)
    case None =>
    case Some(i) =>
      var rest := s[i + 1..];
      var tail := Split(rest, sep);
      JoinSplit(rest, sep);
      assert Split(s, sep) == [s[..i]] + tail;
      assert ([s[..i]] + tail)[1..] == tail;
      assert Join([s[..i]] + tail, [sep]) == s[..i] + [sep] + Join(tail, [sep]);
      assert s == s[..i] + [sep] + rest;
  }

  /** Splitting around an inserted separator splits each side on its own. */
  lemma {:induction false} SplitAround(a: string, sep: char, b: string)
    ensures Split(a + [sep] + b, sep) == Split(a, sep) + Split(b, sep)
    decreases |a|
  {
    match IndexOf(a, sep)
    case None =>
      SplitAroundNone(a, sep, b);
    case Some(i) =>
      SplitAround(a[i + 1..], sep, b);
      SplitAroundSome(a, sep, b, i);
  }

  lemma SplitAroundNone(a: string, sep: char, b: string)
    requires sep !in a
    ensures Split(a + [sep] + b, sep) == Split(a, sep) + Split(b, sep)
  {
    var s := a + [sep] + b;
    IndexOfPrefix(a, sep, b);
    assert s[..|a|] == a && s[|a| + 1..] == b;
    SplitAt(s, sep, |a|);
    SplitNone(a, sep);
  }

  lemma SplitAroundSome(a: string, sep: char, b: string, i: nat)
    requires IndexOf(a, sep) == Some(i)
    requires Split(a[i + 1..] + [sep] + b, sep) == Split(a[i + 1..], sep) + Split(b, sep)
    ensures Split(a + [sep] + b, sep) == Split(a, sep) + Split(b, sep)
  {
    var s, r := a + [sep] + b, a[i + 1..];
    IndexOfEarlier(a, sep, b, i);
    assert s[..i] == a[..i];
    DropConcat(a + [sep], b, i + 1);
    DropConcat(a, [sep], i + 1);
    SplitAt(s, sep, i);
    SplitAt(a, sep, i);
    var pr, pb := Split(r, sep), Split(b, sep);
    assert Split(s, sep) == [a[..i]] + (pr + pb);
    assert Split(a, sep) == [a[..i]] + pr;
    ConcatAssoc([a[..i]], pr, pb);
  }

  lemma LastSplit<T>(s: seq<T>)
    requires |s| > 0
    ensures s == s[..|s| - 1] + [s[|s| - 1]]
  {
  }

  lemma ConcatAssoc<T>(x: seq<T>, y: seq<T>, z: seq<T>)
    ensures x + (y + z) == (x + y) + z
  {
  }

  lemma DropConcat(a: string, t: string, k: nat)
    requires k <= |a|
    ensures (a + t)[k..] == a[k..] + t
  {
  }

  lemma SplitAt(s: string, sep: char, i: nat)
    requires IndexOf(s, sep) == Some(i)
    ensures Split(s, sep) == [s[..i]] + Split(s[i + 1..], sep)
  {
  }

  lemma SplitNone(s: string, sep: char)
    requires sep !in s
    ensures Split(s, sep) == [s]
  {
  }

  lemma IndexOfEarlier(a: string, c: char, b: string, i: nat)
    requires IndexOf(a, c) == Some(i)
    ensures IndexOf(a + [c] + b, c) == Some(i)
  {
    var s := a + [c] + b;
    assert s[..i] == a[..i];
    assert s[i] == c;
  }

  // ---------------------------------------------------------------------
  // Replacing one character

  /** strings.ReplaceAll(s, [c], repl) for a one-character pattern. */
  function ReplaceChar(s: string, c: char, repl: string): (r: string)
    ensures c !in repl ==> c !in r
    ensures |r| == |s| + Count(s, c) * (|repl| - 1)
  {
    if |s| == 0 then ""
    else (if s[0] == c then repl else [s[0]]) + ReplaceChar(s[1..], c, repl)
  }

  /** Replacing in a concatenation replaces in each part. */
  lemma ReplaceAppend(a: string, b: string, c: char, repl: string)
    ensures ReplaceChar(a + b, c, repl) == ReplaceChar(a, c, repl) + ReplaceChar(b, c, repl)
  {
    if |a| == 0 {
      assert a + b == b;
    } else {
      assert (a + b)[0] == a[0];
      assert (a + b)[1..] == a[1..] + b;
      ReplaceAppend(a[1..], b, c, repl);
    }
  }

  // ---------------------------------------------------------------------
  // Words

  /** Length of the leading run of characters that are not separators. */
  function WordLen(s: string, isSep: char -> bool): (n: nat)
    ensures n <= |s|
    ensures forall i :: 0 <= i < n ==> !isSep(s[i])
    ensures n < |s| ==> isSep(s[n])
  {
    if |s| == 0 || isSep(s[0]) then 0 else 1 + WordLen(s[1..], isSep)
  }

  /** strings.FieldsFunc: the maximal runs of non-separator characters. */
  function FieldsFunc(s: string, isSep: char -> bool): (words: seq<string>)
    ensures forall k :: 0 <= k < |words| ==> |words[k]| > 0
    ensures forall k, i :: 0 <= k < |words| && 0 <= i < |words[k]| ==> !isSep(words[k][i])
    decreases |s|
  {
    if |s| == 0 then []
    else if isSep(s[0]) then FieldsFunc(s[1..], isSep)
    else
      var n := WordLen(s, isSep);
      [s[..n]] + FieldsFunc(s[n..], isSep)
  }

  /** The characters of `s` that are not separators, in order. */
  function Keep(s: string, isSep: char -> bool): string
  {
    if |s| == 0 then "" else (if isSep(s[0]) then "" else [s[0]]) + Keep(s[1..], isSep)
  }

  function Concat(words: seq<string>): string
  {
    if |words| == 0 then "" else words[0] + Concat(words[1..])
  }

  lemma KeepAppend(a: string, b: string, isSep: char -> bool)
    ensures Keep(a + b, isSep) == Keep(a, isSep) + Keep(b, isSep)
  {
    if |a| == 0 {
      assert a + b == b;
    } else {
      assert (a + b)[1..] == a[1..] + b;
      KeepAppend(a[1..], b, isSep);
    }
  }

  lemma KeepNoSep(s: string, isSep: char -> bool)
    requires forall i :: 0 <= i < |s| ==> !isSep(s[i])
    ensures Keep(s, isSep) == s
  {
    if |s| > 0 { KeepNoSep(s[1..], isSep); }
  }

  /** FieldsFunc loses exactly the separators: the words, concatenated,
      are the input with every separator removed. */
  lemma {:induction false} FieldsFuncKeeps(s: string, isSep: char -> bool)
    ensures Concat(FieldsFunc(s, isSep)) == Keep(s, isSep)
    decreases |s|
  {
    if |s| == 0 {
    } else if isSep(s[0]) {
      FieldsFuncKeeps(s[1..], isSep);
    } else {
      var n := WordLen(s, isSep);
      FieldsFuncKeeps(s[n..], isSep);
      assert s == s[..n] + s[n..];
      KeepAppend(s[..n], s[n..], isSep);
      KeepNoSep(s[..n], isSep);
    }
  }

  /** There are no words exactly when every character is a separator. */
  lemma {:induction false} FieldsFuncEmpty(s: string, isSep: char -> bool)
    ensures FieldsFunc(s, isSep) == [] <==> forall i :: 0 <= i < |s| ==> isSep(s[i])
    decreases |s|
  {
    if |s| > 0 && isSep(s[0]) {
      FieldsFuncEmpty(s[1..], isSep);
      if forall i :: 0 <= i < |s[1..]| ==> isSep(s[1..][i]) {
        forall i | 0 <= i < |s| ensures isSep(s[i]) {
          if i > 0 { assert s[i] == s[1..][i - 1]; }
        }
      }
    }
  }

  /** strings.Fields. */
  function Fields(s: string): seq<string>
  {
    FieldsFunc(s, IsSpace)
  }

  function TrimLeft(s: string): (r: string)
    ensures |r| <= |s|
  {
    if |s| > 0 && IsSpace(s[0]) then TrimLeft(s[1..]) else s
  }

  function TrimRight(s: string): (r: string)
    ensures |r| <= |s|
  {
    if |s| > 0 && IsSpace(s[|s| - 1]) then TrimRight(s[..|s| - 1]) else s
  }

  /** strings.TrimSpace. */
  function TrimSpace(s: string): string
  {
    TrimRight(TrimLeft(s))
  }

  // ---------------------------------------------------------------------
  // Decimal integers

  const MinInt64: int := -0x8000_0000_0000_0000
  const MaxInt64: int := 0x7FFF_FFFF_FFFF_FFFF

  predicate AllDigits(s: string) { forall i :: 0 <= i < |s| ==> IsDigit(s[i]) }

  /** The value of a string of decimal digits, most significant first. */
  function DigitsValue(s: string): (n: nat)
    requires AllDigits(s)
  {
    if |s| == 0 then 0
    else DigitsValue(s[..|s| - 1]) * 10 + (s[|s| - 1] as int - '0' as int)
  }

  /** strconv.Atoi on a 64-bit platform: an optional sign, then at least
      one ASCII digit, and the value must fit in an int64. */
  function Atoi(s: string): (r: Option<int>)
    ensures r.Some? ==> MinInt64 <= r.value <= MaxInt64
  {
    if |s| == 0 then None
    else
      var neg := s[0] == '-';
      var digits := if s[0] == '-' || s[0] == '+' then s[1..] else s;
      if |digits| == 0 || !AllDigits(digits) then None
      else
        var d: int := DigitsValue(digits);
        var v := if neg then -d else d;
        if MinInt64 <= v <= MaxInt64 then Some(v) else None
  }

  /** Decimal digits of a natural number, without leading zeros. */
  function NatDigits(n: nat): (s: string)
    ensures |s| > 0 && AllDigits(s)
  {
    if n < 10 then [('0' as int + n) as char]
    else NatDigits(n / 10) + [('0' as int + n % 10) as char]
  }

  /** strconv.Itoa, which is also fmt's `%d`. */
  function Itoa(n: int): (s: string)
    ensures |s| > 0
    ensures forall i :: 0 <= i < |s| ==> IsDigit(s[i]) || (i == 0 && s[i] == '-' && n < 0)
  {
    if n < 0 then "-" + NatDigits(-n) else NatDigits(n)
  }

  lemma {:induction false} NatDigitsValue(n: nat)
    ensures DigitsValue(NatDigits(n)) == n
  {
    if n >= 10 {
      NatDigitsValue(n / 10);
      var s := NatDigits(n);
      assert s[..|s| - 1] == NatDigits(n / 10);
    }
  }

  /** Parsing a formatted integer gives it back, for every int64. */
  lemma AtoiItoa(n: int)
    requires MinInt64 <= n <= MaxInt64
    ensures Atoi(Itoa(n)) == Some(n)
  {
    var s := Itoa(n);
    if n < 0 {
      var digits := NatDigits(-n);
      NatDigitsValue(-n);
      assert s[0] == '-' && s[1..] == digits;
      assert DigitsValue(digits) == -n;
      assert Atoi(s) == Some(n);
    } else {
      NatDigitsValue(n);
      assert IsDigit(s[0]);
      assert Atoi(s) == Some(n);
    }
  }
}

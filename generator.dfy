/** The module generator's name conversions: snake_case, camelCase,
    PascalCase and the flat lower-case name, over ASCII. */
module Generator {
  import opened GoStrings

  // ---------------------------------------------------------------------
  // Words and title case

  /** The separators the camel and Pascal conversions split on. */
  predicate IsWordSep(c: char) { c == '_' || c == '-' || c == ' ' }

  /** strings.FieldsFunc on `_`, `-` and space: non-empty words without
      separators that, concatenated, are the input with its separators
      removed; none exactly when the input is only separators. */
  function Words(s: string): (r: seq<string>)
    ensures forall k :: 0 <= k < |r| ==> |r[k]| > 0
    ensures forall k, i :: 0 <= k < |r| && 0 <= i < |r[k]| ==> !IsWordSep(r[k][i])
    ensures Concat(r) == Keep(s, IsWordSep)
    ensures r == [] <==> forall i :: 0 <= i < |s| ==> IsWordSep(s[i])
  {
    FieldsFuncKeeps(s, IsWordSep);
    FieldsFuncEmpty(s, IsWordSep);
    FieldsFunc(s, IsWordSep)
  }

  /** The separators of strings.Title: every ASCII character other than
      letters, digits and `_`, and white space beyond ASCII. */
  predicate IsTitleSep(c: char)
  {
    if c as int <= 0x7F then !(IsLetter(c) || IsDigit(c) || c == '_') else IsSpace(c)
  }

  /** strings.Title, with `prev` the character before `s` (a space at the
      start). */
  function TitleFrom(prev: char, s: string): (r: string)
    ensures |r| == |s|
    decreases |s|
  {
    if |s| == 0 then ""
    else [if IsTitleSep(prev) then Upper(s[0]) else s[0]] + TitleFrom(s[0], s[1..])
  }

  /** strings.Title: the first character and every character after a
      separator is upper-cased. */
  function Title(s: string): (r: string)
    ensures |r| == |s|
  {
    TitleFrom(' ', s)
  }

  lemma {:induction false} TitleFromAt(prev: char, s: string, i: nat)
    requires i < |s|
    ensures TitleFrom(prev, s)[i] ==
      if IsTitleSep(if i == 0 then prev else s[i - 1]) then Upper(s[i]) else s[i]
    decreases i
  {
    if i > 0 {
      TitleFromAt(s[0], s[1..], i - 1);
      assert s[1..][i - 1] == s[i];
      if i > 1 {
        assert s[1..][i - 2] == s[i - 1];
      }
    }
  }

  /** Title upper-cases exactly the first character and the characters
      that follow a separator. */
  lemma TitleAt(s: string, i: nat)
    requires i < |s|
    ensures Title(s)[i] == if i == 0 || IsTitleSep(s[i - 1]) then Upper(s[i]) else s[i]
  {
    TitleFromAt(' ', s, i);
  }

  predicate IsAlnum(c: char) { IsLetter(c) || IsDigit(c) }

  /** For a word of ASCII letters and digits, Title(ToLower(w)) is the
      first character upper-cased followed by the rest lower-cased. */
  lemma TitleLowerWord(w: string)
    requires |w| > 0 && forall i :: 0 <= i < |w| ==> IsAlnum(w[i])
    ensures Title(ToLower(w)) == [Upper(w[0])] + ToLower(w[1..])
  {
    var x, t := Lower(w[0]), ToLower(w[1..]);
    LowerHead(w);
    LowerAlnum(w[1..]);
    LowerAlnumChar(w[0]);
    TitleCons(x, t);
    TitleFromAlnum(x, t);
  }

  lemma TitleCons(x: char, t: string)
    ensures Title([x] + t) == [Upper(x)] + TitleFrom(x, t)
  {
    assert ([x] + t)[0] == x && ([x] + t)[1..] == t;
  }

  lemma LowerAlnum(w: string)
    requires forall i :: 0 <= i < |w| ==> IsAlnum(w[i])
    ensures forall i :: 0 <= i < |w| ==> IsAlnum(ToLower(w)[i])
    ensures |w| > 0 ==> Upper(ToLower(w)[0]) == Upper(w[0])
  {
    forall i | 0 <= i < |w| ensures IsAlnum(ToLower(w)[i]) {
      LowerAlnumChar(w[i]);
    }
    if |w| > 0 {
      LowerAlnumChar(w[0]);
    }
  }

  lemma LowerAlnumChar(c: char)
    requires IsAlnum(c)
    ensures IsAlnum(Lower(c)) && Upper(Lower(c)) == Upper(c)
  {
  }

  /** After a letter or digit, Title leaves a run of letters and digits
      alone. */
  lemma {:induction false} TitleFromAlnum(prev: char, s: string)
    requires IsAlnum(prev) && forall i :: 0 <= i < |s| ==> IsAlnum(s[i])
    ensures TitleFrom(prev, s) == s
    decreases |s|
  {
    if |s| > 0 {
      TitleFromAlnum(s[0], s[1..]);
    }
  }

  /** Title(ToLower(w)) for every word, concatenated in order. */
  function TitledWords(words: seq<string>): (r: string)
  {
    if |words| == 0 then ""
    else TitledWords(words[..|words| - 1]) + Title(ToLower(words[|words| - 1]))
  }

  lemma TitledWordsSnoc(words: seq<string>, w: string)
    ensures TitledWords(words + [w]) == TitledWords(words) + Title(ToLower(w))
  {
    assert (words + [w])[..|words|] == words;
  }

  lemma {:induction false} TitledWordsCons(w: string, words: seq<string>)
    ensures TitledWords([w] + words) == Title(ToLower(w)) + TitledWords(words)
    decreases |words|
  {
    if |words| == 0 {
      assert ([w] + words)[..0] == [];
    } else {
      var all := [w] + words;
      var init := words[..|words| - 1];
      var last := Title(ToLower(words[|words| - 1]));
      assert all[..|all| - 1] == [w] + init;
      assert all[|all| - 1] == words[|words| - 1];
      TitledWordsCons(w, init);
      calc {
        TitledWords(all);
        TitledWords([w] + init) + last;
        (Title(ToLower(w)) + TitledWords(init)) + last;
        Title(ToLower(w)) + (TitledWords(init) + last);
        Title(ToLower(w)) + TitledWords(words);
      }
    }
  }

  /** Title and ToLower never produce a word separator from another
      character. */
  lemma TitleLowerNoSep(w: string)
    requires forall i :: 0 <= i < |w| ==> !IsWordSep(w[i])
    ensures forall i :: 0 <= i < |w| ==> !IsWordSep(Title(ToLower(w))[i])
  {
    forall i | 0 <= i < |w| ensures !IsWordSep(Title(ToLower(w))[i]) {
      TitleAt(ToLower(w), i);
    }
  }

  lemma {:induction false} TitledWordsNoSep(words: seq<string>)
    requires forall k, i :: 0 <= k < |words| && 0 <= i < |words[k]| ==> !IsWordSep(words[k][i])
    ensures forall i :: 0 <= i < |TitledWords(words)| ==> !IsWordSep(TitledWords(words)[i])
  {
    if |words| > 0 {
      var init := words[..|words| - 1];
      var last := words[|words| - 1];
      TitledWordsNoSep(init);
      TitleLowerNoSep(last);
      var a, b := TitledWords(init), Title(ToLower(last));
      assert TitledWords(words) == a + b;
      forall i | 0 <= i < |a + b| ensures !IsWordSep((a + b)[i]) {
        if i >= |a| { assert (a + b)[i] == b[i - |a|]; }
      }
    }
  }

  /** Title-cased non-empty words concatenate to the empty string only
      when there are none. */
  lemma TitledWordsLength(words: seq<string>)
    requires forall k :: 0 <= k < |words| ==> |words[k]| > 0
    ensures TitledWords(words) == "" <==> words == []
  {
  }

  // ---------------------------------------------------------------------
  // The four conversions

  /** `s` with `_` inserted before every ASCII upper-case letter that is
      not the first character: one `_` per such letter. */
  function Underscored(s: string): (r: string)
    ensures |r| == |s| + (if |s| == 0 then 0 else CountUpper(s[1..]))
  {
    if |s| == 0 then ""
    else
      var n := |s| - 1;
      CountUpperTail(s);
      Underscored(s[..n]) + (if n > 0 && IsUpper(s[n]) then "_" else "") + [s[n]]
  }

  /** The number of ASCII upper-case letters in `s`. */
  function CountUpper(s: string): nat
  {
    if |s| == 0 then 0 else (if IsUpper(s[0]) then 1 else 0) + CountUpper(s[1..])
  }

  lemma CountUpperSnoc(s: string, c: char)
    ensures CountUpper(s + [c]) == CountUpper(s) + (if IsUpper(c) then 1 else 0)
  {
    if |s| > 0 {
      assert (s + [c])[1..] == s[1..] + [c];
      CountUpperSnoc(s[1..], c);
    }
  }

  /** The upper-case letters after the first character, counted up to the
      last character and then the last. */
  lemma CountUpperTail(s: string)
    requires |s| > 0
    ensures var n := |s| - 1;
      CountUpper(s[1..]) == (if n == 0 then 0 else CountUpper(s[..n][1..]) + (if IsUpper(s[n]) then 1 else 0))
  {
    var n := |s| - 1;
    if n > 0 {
      assert s[1..] == s[..n][1..] + [s[n]];
      CountUpperSnoc(s[..n][1..], s[n]);
    }
  }

  /** toSnakeCase: lower case, with `_` before each former upper-case
      letter after the first character. */
  function SnakeCase(s: string): (r: string)
    ensures forall i :: 0 <= i < |r| ==> !IsUpper(r[i])
    ensures |r| == |s| + (if |s| == 0 then 0 else CountUpper(s[1..]))
  {
    ToLower(Underscored(s))
  }

  /** toCamelCase: the first word lower-cased, later words title-cased;
      the input itself, separators and all, when it has no words, and
      otherwise a name without separators. */
  function CamelCase(s: string): (r: string)
    ensures Words(s) == [] ==> r == s
    ensures Words(s) != [] ==> forall i :: 0 <= i < |r| ==> !IsWordSep(r[i])
  {
    var words := Words(s);
    if |words| == 0 then s
    else
      CamelWordsNoSep(words);
      CamelWords(words)
  }

  /** toPascalCase: every word title-cased; a name without separators,
      empty exactly when the input is only separators. */
  function PascalCase(s: string): (r: string)
    ensures forall i :: 0 <= i < |r| ==> !IsWordSep(r[i])
    ensures r == "" <==> forall i :: 0 <= i < |s| ==> IsWordSep(s[i])
  {
    var words := Words(s);
    TitledWordsNoSep(words);
    TitledWordsLength(words);
    TitledWords(words)
  }

  /** ToLowerCase: every `_` removed, the rest lower-cased. */
  function LowerCase(s: string): (r: string)
    ensures forall i :: 0 <= i < |r| ==> r[i] != '_' && !IsUpper(r[i])
    ensures |r| == |s| - Count(s, '_')
  {
    ToLower(ReplaceChar(s, '_', ""))
  }

  // ---------------------------------------------------------------------
  // Properties of the conversions

  /** The snake conversion only adds underscores. */
  lemma {:induction false} UnderscoredDropped(s: string)
    ensures ReplaceChar(Underscored(s), '_', "") == ReplaceChar(s, '_', "")
  {
    if |s| > 0 {
      var n := |s| - 1;
      var init, x := s[..n], s[n];
      var mark := if n > 0 && IsUpper(x) then "_" else "";
      var u := Underscored(init);
      assert Underscored(s) == u + mark + [x];
      UnderscoredDropped(init);
      ReplaceAppend(u + mark, [x], '_', "");
      ReplaceAppend(u, mark, '_', "");
      ReplaceUnderscore(mark);
      LastSplit(s);
      ReplaceAppend(init, [x], '_', "");
      var rx := ReplaceChar([x], '_', "");
      var ru := ReplaceChar(u, '_', "");
      assert ru + "" == ru;
      assert ReplaceChar(Underscored(s), '_', "") == ru + rx;
    }
  }

  lemma ReplaceUnderscore(mark: string)
    requires mark == "" || mark == "_"
    ensures ReplaceChar(mark, '_', "") == ""
  {
    if mark == "_" {
      assert mark[1..] == "";
    }
  }

  lemma {:induction false} ReplaceLower(s: string)
    ensures ReplaceChar(ToLower(s), '_', "") == ToLower(ReplaceChar(s, '_', ""))
  {
    if |s| > 0 {
      ReplaceLower(s[1..]);
      assert ToLower(s)[1..] == ToLower(s[1..]);
      var head := if s[0] == '_' then "" else [s[0]];
      ToLowerAppend(head, ReplaceChar(s[1..], '_', ""));
    }
  }

  lemma ToLowerIdempotent(s: string)
    ensures ToLower(ToLower(s)) == ToLower(s)
  {
  }

  /** The flat lower-case name does not depend on the snake conversion:
      ToLowerCase(toSnakeCase(s)) == ToLowerCase(s). */
  lemma SnakeThenLowerCase(s: string)
    ensures LowerCase(SnakeCase(s)) == LowerCase(s)
  {
    var u := Underscored(s);
    ReplaceLower(u);
    ToLowerIdempotent(ReplaceChar(u, '_', ""));
    UnderscoredDropped(s);
  }

  /** strings.FieldsFunc of a word without separators is that word. */
  lemma WordsOfWord(w: string)
    requires |w| > 0 && forall i :: 0 <= i < |w| ==> !IsWordSep(w[i])
    ensures Words(w) == [w]
  {
    var n := WordLen(w, IsWordSep);
    assert w[..n] == w;
    assert w[n..] == "";
    assert FieldsFunc(w, IsWordSep) == [w[..n]] + FieldsFunc(w[n..], IsWordSep);
  }

  /** The lower-cased first word followed by the title-cased rest. */
  function CamelWords(words: seq<string>): string
    requires |words| > 0
  {
    ToLower(words[0]) + TitledWords(words[1..])
  }

  /** The lower-cased first word followed by the title-cased rest holds
      no separator when the words hold none. */
  lemma CamelWordsNoSep(words: seq<string>)
    requires |words| > 0
    requires forall k, i :: 0 <= k < |words| && 0 <= i < |words[k]| ==> !IsWordSep(words[k][i])
    ensures forall i :: 0 <= i < |CamelWords(words)| ==> !IsWordSep(CamelWords(words)[i])
  {
    var a, b := ToLower(words[0]), TitledWords(words[1..]);
    TitledWordsNoSep(words[1..]);
    forall i | 0 <= i < |a + b| ensures !IsWordSep((a + b)[i]) {
      if i >= |a| { assert (a + b)[i] == b[i - |a|]; }
    }
  }

  /** The camel and Pascal names differ only in the case of their first
      character, when the first word is ASCII letters and digits. */
  lemma CamelPascalAgree(s: string)
    requires Words(s) != [] && forall i :: 0 <= i < |Words(s)[0]| ==> IsAlnum(Words(s)[0][i])
    ensures var c := CamelCase(s);
      |c| > 0 && PascalCase(s) == [Upper(c[0])] + c[1..]
  {
    var words := Words(s);
    assert |words[0]| > 0;
    FirstWordCase(words);
  }

  /** The same, over the word list. */
  lemma FirstWordCase(words: seq<string>)
    requires |words| > 0 && |words[0]| > 0 && forall i :: 0 <= i < |words[0]| ==> IsAlnum(words[0][i])
    ensures var c := ToLower(words[0]) + TitledWords(words[1..]);
      |c| > 0 && TitledWords(words) == [Upper(c[0])] + c[1..]
  {
    var w, rest := words[0], words[1..];
    assert words == [w] + rest;
    TitledWordsCons(w, rest);
    TitleLowerWord(w);
    var l, t, tail := ToLower(w), TitledWords(rest), ToLower(w[1..]);
    LowerHead(w);
    assert TitledWords(words) == [Upper(w[0])] + tail + t;
    RecaseHead(w[0], tail, t);
  }

  /** Upper-casing the head of a lower-cased head restores the upper-case
      head. */
  lemma RecaseHead(x: char, tail: string, t: string)
    ensures var c := [Lower(x)] + tail + t; [Upper(c[0])] + c[1..] == [Upper(x)] + tail + t
  {
    HeadTail(Lower(x), tail, t);
    var c := [Lower(x)] + tail + t;
    assert Upper(c[0]) == Upper(x);
    ConcatAssoc([Upper(x)], tail, t);
  }

  lemma HeadTail(x: char, tail: string, t: string)
    ensures var c := [x] + tail + t; c[0] == x && c[1..] == tail + t
  {
  }

  lemma LowerHead(w: string)
    requires |w| > 0
    ensures ToLower(w) == [Lower(w[0])] + ToLower(w[1..])
  {
  }

  /** A single word of letters and digits: toPascalCase upper-cases its
      first character and lower-cases the rest, so "UserProfile" becomes
      "Userprofile", not "UserProfile". */
  lemma PascalOfWord(w: string)
    requires |w| > 0 && forall i :: 0 <= i < |w| ==> IsAlnum(w[i])
    ensures PascalCase(w) == [Upper(w[0])] + ToLower(w[1..])
  {
    WordsOfWord(w);
    TitledWordsSnoc([], w);
    assert [] + [w] == [w];
    TitleLowerWord(w);
  }

  /** After the first character, letters other than upper case are kept
      as they are. */
  lemma {:induction false} UnderscoredNoUpper(s: string, t: string)
    requires |s| > 0 && forall i :: 0 <= i < |t| ==> !IsUpper(t[i])
    ensures Underscored(s + t) == Underscored(s) + t
    decreases |t|
  {
    if |t| == 0 {
      assert s + t == s;
    } else {
      var t', x := t[..|t| - 1], t[|t| - 1];
      UnderscoredNoUpper(s, t');
      assert (s + t)[..|s + t| - 1] == s + t';
      assert (s + t)[|s + t| - 1] == x;
      assert !IsUpper(x);
      assert Underscored(s + t) == Underscored(s + t') + "" + [x];
      assert t == t' + [x];
    }
  }

  lemma UnderscoredUpper(s: string, c: char)
    requires |s| > 0 && IsUpper(c)
    ensures Underscored(s + [c]) == Underscored(s) + "_" + [c]
  {
    assert (s + [c])[..|s|] == s;
  }

  /** A lone first hump is kept as it is. */
  lemma UnderscoredFirstHump(a: string)
    requires |a| > 0 && forall i :: 1 <= i < |a| ==> !IsUpper(a[i])
    ensures Underscored(a) == a
  {
    var a0, a1 := [a[0]], a[1..];
    assert a == a0 + a1;
    assert Underscored(a0) == a0 by {
      assert a0[..0] == [];
    }
    UnderscoredNoUpper(a0, a1);
  }

  lemma UnderscoredTwoHumps(a: string, c: char, t: string)
    requires |a| > 0 && IsUpper(c)
    requires forall i :: 1 <= i < |a| ==> !IsUpper(a[i])
    requires forall i :: 0 <= i < |t| ==> !IsUpper(t[i])
    ensures Underscored(a + [c] + t) == a + "_" + [c] + t
  {
    UnderscoredFirstHump(a);
    UnderscoredUpper(a, c);
    UnderscoredNoUpper(a + [c], t);
  }

  /** Two humps: "UserProfile" becomes "user_profile". */
  lemma SnakeTwoHumps(a: string, b: string)
    requires |a| > 0 && |b| > 0 && IsUpper(b[0])
    requires forall i :: 1 <= i < |a| ==> !IsUpper(a[i])
    requires forall i :: 1 <= i < |b| ==> !IsUpper(b[i])
    ensures SnakeCase(a + b) == ToLower(a) + "_" + ToLower(b)
  {
    var c, t := b[0], b[1..];
    assert b == [c] + t;
    ConcatAssoc(a, [c], t);
    UnderscoredTwoHumps(a, c, t);
    ConcatAssoc(a + "_", [c], t);
    ToLowerAppend(a + "_", b);
    ToLowerAppend(a, "_");
    assert ToLower("_") == "_";
  }

  // ---------------------------------------------------------------------
  // The exported helpers (generator.go:186-227)

  method ToSnakeCase(s: string) returns (r: string)
    ensures r == SnakeCase(s)
  {
    var result := "";
    for i := 0 to |s|
      invariant result == Underscored(s[..i])
    {
      assert s[..i + 1][..i] == s[..i];
      if i > 0 && IsUpper(s[i]) {
        result := result + "_";
      }
      result := result + [s[i]];
    }
    assert s[..|s|] == s;
    r := ToLower(result);
  }

  method ToCamelCase(s: string) returns (r: string)
    ensures r == CamelCase(s)
  {
    var words := Words(s);
    if |words| == 0 {
      return s;
    }
    r := ToLower(words[0]);
    for i := 1 to |words|
      invariant r == ToLower(words[0]) + TitledWords(words[1..i])
    {
      TitledWordsSnoc(words[1..i], words[i]);
      assert words[1..i + 1] == words[1..i] + [words[i]];
      ConcatAssoc(ToLower(words[0]), TitledWords(words[1..i]), Title(ToLower(words[i])));
      r := r + Title(ToLower(words[i]));
    }
    assert words[1..|words|] == words[1..];
  }

  method ToPascalCase(s: string) returns (r: string)
    ensures r == PascalCase(s)
  {
    var words := Words(s);
    r := "";
    for i := 0 to |words|
      invariant r == TitledWords(words[..i])
    {
      TitledWordsSnoc(words[..i], words[i]);
      assert words[..i + 1] == words[..i] + [words[i]];
      r := r + Title(ToLower(words[i]));
    }
    assert words[..|words|] == words;
  }

  method ToLowerCase(s: string) returns (r: string)
    ensures r == LowerCase(s)
    ensures forall i :: 0 <= i < |r| ==> r[i] != '_' && !IsUpper(r[i])
    ensures |r| == |s| - Count(s, '_')
  {
    r := ToLower(ReplaceChar(s, '_', ""));
  }

  // ---------------------------------------------------------------------
  // The generator

  /** The module name in the four cases the templates use. */
  datatype ModuleData = ModuleData(snakeCase: string, camelCase: string, pascalCase: string, lowerCase: string)

  class ModuleGenerator {
    const modulesPath: string

    /** NewModuleGenerator. */
    constructor (modulesPath: string)
      ensures this.modulesPath == modulesPath
    {
      this.modulesPath := modulesPath;
    }

    /** toSnakeCase, written out apart from ToSnakeCase as in the source;
        both meet SnakeCase, so the two agree on every input. */
    method toSnakeCase(s: string) returns (r: string)
      ensures r == SnakeCase(s)
    {
      var result := "";
      for i := 0 to |s|
        invariant result == Underscored(s[..i])
      {
        assert s[..i + 1][..i] == s[..i];
        if i > 0 && IsUpper(s[i]) {
          result := result + "_";
        }
        result := result + [s[i]];
      }
      assert s[..|s|] == s;
      r := ToLower(result);
    }

    /** toCamelCase; agrees with ToCamelCase through CamelCase. */
    method toCamelCase(s: string) returns (r: string)
      ensures r == CamelCase(s)
    {
      var words := Words(s);
      if |words| == 0 {
        return s;
      }
      r := ToLower(words[0]);
      for i := 1 to |words|
        invariant r == ToLower(words[0]) + TitledWords(words[1..i])
      {
        TitledWordsSnoc(words[1..i], words[i]);
        assert words[1..i + 1] == words[1..i] + [words[i]];
        ConcatAssoc(ToLower(words[0]), TitledWords(words[1..i]), Title(ToLower(words[i])));
        r := r + Title(ToLower(words[i]));
      }
      assert words[1..|words|] == words[1..];
    }

    /** toPascalCase; agrees with ToPascalCase through PascalCase. */
    method toPascalCase(s: string) returns (r: string)
      ensures r == PascalCase(s)
    {
      var words := Words(s);
      r := "";
      for i := 0 to |words|
        invariant r == TitledWords(words[..i])
      {
        TitledWordsSnoc(words[..i], words[i]);
        assert words[..i + 1] == words[..i] + [words[i]];
        r := r + Title(ToLower(words[i]));
      }
      assert words[..|words|] == words;
    }

    /** prepareModuleData. */
    method prepareModuleData(moduleName: string) returns (data: ModuleData)
      ensures data == ModuleData(SnakeCase(moduleName), CamelCase(moduleName),
                                 PascalCase(moduleName), LowerCase(moduleName))
    {
      var snake := toSnakeCase(moduleName);
      var camel := toCamelCase(moduleName);
      var pascal := toPascalCase(moduleName);
      var lower := ToLower(ReplaceChar(moduleName, '_', ""));
      data := ModuleData(snake, camel, pascal, lower);
    }
  }
}

/** The Python string operations the encoder is built from: str.split() with and
    without a separator, str.join, str.swapcase, sorted() and int(). */
module Text {
  import opened Failures

  /** Python's str.isspace() for one character: the separators of str.split(). */
  predicate IsSpace(c: char) {
    var k := c as int;
    (0x09 <= k <= 0x0D) || (0x1C <= k <= 0x20) || k == 0x85 || k == 0xA0 || k == 0x1680
    || (0x2000 <= k <= 0x200A) || k == 0x2028 || k == 0x2029 || k == 0x202F
    || k == 0x205F || k == 0x3000
  }

  predicate NoSpace(s: string) {
    forall i :: 0 <= i < |s| ==> !IsSpace(s[i])
  }

  /** A field str.split() can produce: non-empty and free of whitespace. */
  predicate IsWord(w: string) {
    |w| > 0 && NoSpace(w)
  }

  /** Length of the leading run of non-whitespace characters. */
  function TokenLength(s: string): (n: nat)
    ensures n <= |s|
    ensures forall i :: 0 <= i < n ==> !IsSpace(s[i])
    ensures n < |s| ==> IsSpace(s[n])
  {
    if |s| == 0 || IsSpace(s[0]) then 0 else 1 + TokenLength(s[1..])
  }

  /** str.split() with no argument: the maximal runs of non-whitespace, in order. */
  function Split(s: string): (fields: seq<string>)
    ensures forall i :: 0 <= i < |fields| ==> IsWord(fields[i])
    decreases |s|
  {
    if |s| == 0 then []
    else if IsSpace(s[0]) then Split(s[1..])
    else
      var n := TokenLength(s);
      [s[..n]] + Split(s[n..])
  }

  /** The number of characters in all the parts together. */
  function TotalLength(parts: seq<string>): nat {
    if |parts| == 0 then 0 else |parts[0]| + TotalLength(parts[1..])
  }

  /** The number of characters in n copies of the separator. */
  function SeparatorsLength(n: nat, sep: string): nat {
    if n == 0 then 0 else |sep| + SeparatorsLength(n - 1, sep)
  }

  /** sep.join(parts). */
  function Join(parts: seq<string>, sep: string): (joined: string)
    ensures |parts| == 0 ==> joined == ""
    ensures |parts| > 0 ==> |joined| == TotalLength(parts) + SeparatorsLength(|parts| - 1, sep)
  {
    if |parts| == 0 then ""
    else if |parts| == 1 then parts[0]
    else parts[0] + sep + Join(parts[1..], sep)
  }

  /** The joined string starts with the first part, followed, when there are
      more parts, by the separator and the join of the rest. */
  lemma JoinFirst(parts: seq<string>, sep: string)
    requires |parts| > 0
    ensures parts[0] <= Join(parts, sep)
    ensures |parts| == 1 ==> Join(parts, sep) == parts[0]
    ensures |parts| > 1 ==> Join(parts, sep) == parts[0] + sep + Join(parts[1..], sep)
  {
  }

  /** Joining one more part appends the separator and that part: the parts
      appear in order, one separator between each two. */
  lemma {:induction false} JoinLast(parts: seq<string>, part: string, sep: string)
    requires |parts| > 0
    ensures Join(parts + [part], sep) == Join(parts, sep) + sep + part
  {
    var longer := parts + [part];
    if |parts| > 1 {
      assert longer[1..] == parts[1..] + [part];
      JoinLast(parts[1..], part, sep);
      assert parts[0] + sep + (Join(parts[1..], sep) + sep + part)
          == (parts[0] + sep + Join(parts[1..], sep)) + sep + part;
    } else {
      assert longer[1..] == [part];
    }
  }

  /** Joining adds no character beyond those of the parts and the separator. */
  lemma {:induction false} JoinCharacters(parts: seq<string>, sep: string)
    ensures forall c :: c in Join(parts, sep) ==> c in sep || exists i :: 0 <= i < |parts| && c in parts[i]
  {
    if |parts| > 1 {
      JoinCharacters(parts[1..], sep);
      forall c | c in Join(parts, sep)
        ensures c in sep || exists i :: 0 <= i < |parts| && c in parts[i]
      {
        assert Join(parts, sep) == parts[0] + sep + Join(parts[1..], sep);
        if c in Join(parts[1..], sep) && c !in sep {
          var i :| 0 <= i < |parts[1..]| && c in parts[1..][i];
          assert parts[i + 1] == parts[1..][i];
        }
      }
    }
  }

  lemma {:induction false} TokenLengthOfWord(w: string, t: string)
    requires IsWord(w)
    requires t == [] || IsSpace(t[0])
    ensures TokenLength(w + t) == |w|
  {
    if |w| == 1 {
      assert (w + t)[1..] == t;
    } else {
      assert (w + t)[1..] == w[1..] + t;
      TokenLengthOfWord(w[1..], t);
    }
  }

  /** A word followed by whitespace (or nothing) is split off as one field. */
  lemma SplitWordThen(w: string, t: string)
    requires IsWord(w)
    requires t == [] || IsSpace(t[0])
    ensures Split(w + t) == [w] + Split(t)
  {
    TokenLengthOfWord(w, t);
    assert (w + t)[..|w|] == w;
    assert (w + t)[|w|..] == t;
  }

  /** Joining words with single spaces and splitting again gives the words back. */
  lemma {:induction false} SplitJoin(words: seq<string>)
    requires forall i :: 0 <= i < |words| ==> IsWord(words[i])
    ensures Split(Join(words, " ")) == words
  {
    if |words| == 1 {
      SplitWordThen(words[0], "");
      assert words[0] + "" == words[0];
    } else if |words| > 1 {
      var rest := Join(words[1..], " ");
      var gap := " " + rest;
      assert Join(words, " ") == words[0] + gap;
      SplitWordThen(words[0], gap);
      assert Split(gap) == Split(rest) by {
        assert gap[1..] == rest;
      }
      SplitJoin(words[1..]);
      assert [words[0]] + words[1..] == words;
    }
  }

  /** str.split(sep) for a one-character separator: the pieces between the
      separators, empty pieces included; there is always at least one. */
  function SplitOn(s: string, sep: char): (parts: seq<string>)
    ensures |parts| >= 1
    ensures forall i :: 0 <= i < |parts| ==> sep !in parts[i]
  {
    if |s| == 0 then [""]
    else
      var rest := SplitOn(s[1..], sep);
      if s[0] == sep then [""] + rest
      else [[s[0]] + rest[0]] + rest[1..]
  }

  /** Splitting on a separator and joining with it gives the string back. */
  lemma {:induction false} JoinSplitOn(s: string, sep: char)
    ensures Join(SplitOn(s, sep), [sep]) == s
  {
    if |s| > 0 {
      JoinSplitOn(s[1..], sep);
      if s[0] == sep {
        assert [s[0]] + s[1..] == s;
      } else {
        JoinSplitOnLetter(s, sep);
      }
    }
  }

  /** The step of JoinSplitOn when s starts with a character other than the
      separator: that character joins the first part. */
  lemma {:induction false} JoinSplitOnLetter(s: string, sep: char)
    requires |s| > 0 && s[0] != sep
    requires Join(SplitOn(s[1..], sep), [sep]) == s[1..]
    ensures Join(SplitOn(s, sep), [sep]) == s
  {
    var rest := SplitOn(s[1..], sep);
    assert SplitOn(s, sep) == [[s[0]] + rest[0]] + rest[1..];
    JoinExtendFirst(s[0], rest, [sep]);
    assert [s[0]] + s[1..] == s;
  }

  /** Putting a character in front of the first part puts it in front of the
      joined string. */
  lemma JoinExtendFirst(c: char, parts: seq<string>, sep: string)
    requires |parts| > 0
    ensures Join([[c] + parts[0]] + parts[1..], sep) == [c] + Join(parts, sep)
  {
    var extended := [[c] + parts[0]] + parts[1..];
    if |parts| > 1 {
      var tail := Join(parts[1..], sep);
      assert extended[1..] == parts[1..];
      assert ([c] + parts[0]) + sep + tail == [c] + (parts[0] + sep + tail);
    }
  }

  lemma {:induction false} SplitOnPrefix(p: string, t: string, sep: char)
    requires sep !in p
    ensures SplitOn(p + t, sep) == [p + SplitOn(t, sep)[0]] + SplitOn(t, sep)[1..]
  {
    if |p| > 0 {
      assert (p + t)[1..] == p[1..] + t;
      SplitOnPrefix(p[1..], t, sep);
      assert [p[0]] + (p[1..] + SplitOn(t, sep)[0]) == p + SplitOn(t, sep)[0];
    } else {
      assert p + t == t;
      assert p + SplitOn(t, sep)[0] == SplitOn(t, sep)[0];
    }
  }

  /** Joining separator-free pieces with the separator and splitting again
      gives the pieces back. */
  lemma {:induction false} SplitOnJoin(parts: seq<string>, sep: char)
    requires |parts| >= 1
    requires forall i :: 0 <= i < |parts| ==> sep !in parts[i]
    ensures SplitOn(Join(parts, [sep]), sep) == parts
  {
    if |parts| == 1 {
      SplitOnPrefix(parts[0], "", sep);
      assert parts[0] + "" == parts[0];
    } else {
      var rest := Join(parts[1..], [sep]);
      assert Join(parts, [sep]) == parts[0] + ([sep] + rest);
      SplitOnJoin(parts[1..], sep);
      assert ([sep] + rest)[1..] == rest;
      assert SplitOn([sep] + rest, sep) == [""] + parts[1..];
      SplitOnPrefix(parts[0], [sep] + rest, sep);
      assert parts[0] + "" == parts[0];
      assert [parts[0]] + parts[1..] == parts;
    }
  }

  lemma {:induction false} SplitOnNoSpace(s: string, sep: char)
    requires NoSpace(s)
    ensures forall i :: 0 <= i < |SplitOn(s, sep)| ==> NoSpace(SplitOn(s, sep)[i])
  {
    if |s| > 0 {
      SplitOnNoSpace(s[1..], sep);
    }
  }

  lemma {:induction false} JoinNoSpace(parts: seq<string>, sep: char)
    requires !IsSpace(sep)
    requires forall i :: 0 <= i < |parts| ==> NoSpace(parts[i])
    ensures NoSpace(Join(parts, [sep]))
  {
    if |parts| > 1 {
      JoinNoSpace(parts[1..], sep);
    }
  }

  /** str.swapcase() on one character: ASCII letters change case. */
  function SwapCaseChar(c: char): char {
    if 'a' <= c <= 'z' then (c as int - 32) as char
    else if 'A' <= c <= 'Z' then (c as int + 32) as char
    else c
  }

  /** str.swapcase(). */
  function SwapCase(s: string): (swapped: string)
    ensures |swapped| == |s|
    ensures forall i :: 0 <= i < |s| ==>
      && ('a' <= s[i] <= 'z' <==> 'A' <= swapped[i] <= 'Z')
      && ('A' <= s[i] <= 'Z' <==> 'a' <= swapped[i] <= 'z')
      && SwapCaseChar(swapped[i]) == s[i]
  {
    seq(|s|, i requires 0 <= i < |s| => SwapCaseChar(s[i]))
  }

  predicate IsSorted(s: string) {
    forall i, j :: 0 <= i < j < |s| ==> s[i] <= s[j]
  }

  function Insert(c: char, s: string): (r: string)
    requires IsSorted(s)
    ensures IsSorted(r) && multiset(r) == multiset(s) + multiset{c}
    ensures r[0] == if |s| == 0 || c <= s[0] then c else s[0]
  {
    if |s| == 0 then [c]
    else if c <= s[0] then [c] + s
    else
      var tail := Insert(c, s[1..]);
      assert s == [s[0]] + s[1..];
      ConsSorted(s[0], tail);
      [s[0]] + tail
  }

  lemma ConsSorted(h: char, t: string)
    requires IsSorted(t) && (|t| == 0 || h <= t[0])
    ensures IsSorted([h] + t)
  {
  }

  /** "".join(sorted(s)): the characters of s in ascending code-point order. */
  function Sorted(s: string): (r: string)
    ensures IsSorted(r) && multiset(r) == multiset(s)
  {
    if |s| == 0 then ""
    else
      assert s == s[..|s| - 1] + [s[|s| - 1]];
      Insert(s[|s| - 1], Sorted(s[..|s| - 1]))
  }

  predicate IsDigit(c: char) {
    '0' <= c <= '9'
  }

  function DigitValue(c: char): int {
    c as int - '0' as int
  }

  /** What int() accepts after an optional sign: digits, single underscores between them. */
  predicate IsIntBody(t: string) {
    && |t| > 0 && IsDigit(t[0]) && IsDigit(t[|t| - 1])
    && (forall i :: 0 <= i < |t| ==> IsDigit(t[i]) || t[i] == '_')
    && (forall i :: 0 <= i < |t| - 1 ==> t[i] == '_' ==> t[i + 1] != '_')
  }

  /** The decimal value of the digits of t, underscores skipped. */
  function DigitsValue(t: string): nat {
    if |t| == 0 then 0
    else if IsDigit(t[|t| - 1]) then 10 * DigitsValue(t[..|t| - 1]) + DigitValue(t[|t| - 1])
    else DigitsValue(t[..|t| - 1])
  }

  /** int(s) for a string without surrounding whitespace; ValueError otherwise. */
  function ParseInt(s: string): (r: Result<int>)
    ensures r.Err? ==> r.error == ValueError
  {
    if |s| > 0 && (s[0] == '+' || s[0] == '-') then
      var magnitude: int := DigitsValue(s[1..]);
      if IsIntBody(s[1..]) then Ok(if s[0] == '-' then -magnitude else magnitude)
      else Err(ValueError)
    else if IsIntBody(s) then Ok(DigitsValue(s) as int)
    else Err(ValueError)
  }

  /** str(n) for a natural number: its decimal digits. */
  function DecimalString(n: nat): (s: string)
    ensures |s| > 0 && forall i :: 0 <= i < |s| ==> IsDigit(s[i])
  {
    if n < 10 then [('0' as int + n) as char]
    else DecimalString(n / 10) + [('0' as int + n % 10) as char]
  }

  lemma {:induction false} DigitsValueOfDecimal(n: nat)
    ensures DigitsValue(DecimalString(n)) == n
  {
    var s := DecimalString(n);
    if n < 10 {
      assert s[..0] == [];
    } else {
      DigitsValueOfDecimal(n / 10);
      assert s[..|s| - 1] == DecimalString(n / 10);
    }
  }

  /** int(str(n)) == n: parsing inverts decimal formatting. */
  lemma ParseDecimal(n: nat)
    ensures ParseInt(DecimalString(n)) == Ok(n)
  {
    DigitsValueOfDecimal(n);
  }

  /** int() of a single character succeeds exactly on a decimal digit, with its value. */
  lemma ParseOneChar(c: char)
    ensures ParseInt([c]) == if IsDigit(c) then Ok(DigitValue(c)) else Err(ValueError)
  {
    var s := [c];
    if IsDigit(c) {
      assert s[..|s| - 1] == [];
      assert IsIntBody(s);
      assert DigitsValue(s) == DigitValue(c);
    } else if c == '+' || c == '-' {
      assert !IsIntBody(s[1..]);
    }
  }
}

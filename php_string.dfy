/** The PHP string built-ins the database layer relies on: `ltrim` with one
    character, `sprintf('%d')` of an integer, `str_replace`, `implode` and
    `is_numeric` (PHP 8 rules). */
module PhpString {

  /** `ltrim($s, $c)` for a one-character mask: strips every leading `c`. */
  function LTrim(s: string, c: char): (r: string)
    ensures |r| <= |s| && r == s[|s| - |r|..]
    ensures forall i :: 0 <= i < |s| - |r| ==> s[i] == c
    ensures r == [] || r[0] != c
  {
    if |s| > 0 && s[0] == c then LTrim(s[1..], c) else s
  }

  function DigitChar(d: nat): (c: char)
    requires d < 10
  {
    "0123456789"[d]
  }

  /** `sprintf('%d', $n)` for a non-negative integer. */
  function NatToString(n: nat): (r: string)
    ensures |r| >= 1
    ensures n < 10 <==> |r| == 1
  {
    if n < 10 then [DigitChar(n)] else NatToString(n / 10) + [DigitChar(n % 10)]
  }

  /** `sprintf('%d', $i)` */
  function IntToString(i: int): string {
    if i < 0 then "-" + NatToString(-i) else NatToString(i)
  }

  /** Different numbers print differently. */
  lemma {:induction false} NatToStringInjective(a: nat, b: nat)
    requires NatToString(a) == NatToString(b)
    ensures a == b
  {
    var s := NatToString(a);
    if a >= 10 && b >= 10 {
      assert s[|s| - 1] == DigitChar(a % 10) && s[|s| - 1] == DigitChar(b % 10);
      assert s[..|s| - 1] == NatToString(a / 10) && s[..|s| - 1] == NatToString(b / 10);
      NatToStringInjective(a / 10, b / 10);
    } else if a < 10 && b < 10 {
      assert s[0] == DigitChar(a) && s[0] == DigitChar(b);
    }
  }

  /** Whether `t` occurs in `s` at position i. */
  ghost predicate OccursAt(t: string, s: string, i: int) {
    0 <= i && i + |t| <= |s| && s[i..i + |t|] == t
  }

  ghost predicate Occurs(t: string, s: string) {
    exists i :: OccursAt(t, s, i)
  }

  /** `str_replace($search, $replace, $subject)` for one search string: every
      occurrence, scanned left to right, is replaced; matches do not overlap and
      the inserted text is not scanned again. An empty search string leaves the
      subject unchanged. */
  function StrReplace(search: string, replace: string, subject: string): string {
    if search == [] then subject else ReplaceAll(search, replace, subject)
  }

  function ReplaceAll(search: string, replace: string, s: string): string
    requires search != []
    decreases |s|
  {
    if |s| < |search| then s
    else if s[..|search|] == search then replace + ReplaceAll(search, replace, s[|search|..])
    else [s[0]] + ReplaceAll(search, replace, s[1..])
  }

  /** `str_replace($searches, $replacements, $subject)` with arrays: each pair is
      applied in turn to the result of the previous one; a missing replacement
      is the empty string. */
  function StrReplaceArrays(searches: seq<string>, replacements: seq<string>, subject: string): string
    decreases |searches|
  {
    if searches == [] then subject
    else
      var replace := if replacements == [] then "" else replacements[0];
      StrReplaceArrays(searches[1..], if replacements == [] then [] else replacements[1..],
                       StrReplace(searches[0], replace, subject))
  }

  /** A string in which the search string does not occur comes out unchanged. */
  lemma {:induction false} ReplaceAllAbsent(search: string, replace: string, s: string)
    requires search != [] && !Occurs(search, s)
    ensures ReplaceAll(search, replace, s) == s
    decreases |s|
  {
    if |s| >= |search| {
      assert !OccursAt(search, s, 0);
      forall i | OccursAt(search, s[1..], i) ensures OccursAt(search, s, i + 1) {
        assert s[i + 1..i + 1 + |search|] == s[1..][i..i + |search|];
      }
      ReplaceAllAbsent(search, replace, s[1..]);
      assert s == [s[0]] + s[1..];
    }
  }

  lemma StrReplaceAbsent(search: string, replace: string, s: string)
    requires !Occurs(search, s)
    ensures StrReplace(search, replace, s) == s
  {
    if search != [] {
      ReplaceAllAbsent(search, replace, s);
    }
  }

  /** A subject that does not start with the search string's first character
      keeps that character and is searched on from the next one. */
  lemma ReplaceAllNoMatchAt(search: string, replace: string, s: string)
    requires search != [] && s != [] && s[0] != search[0]
    ensures ReplaceAll(search, replace, s) == [s[0]] + ReplaceAll(search, replace, s[1..])
  {
    if |s| >= |search| {
      assert s[..|search|][0] != search[0];
    }
  }

  /** An occurrence at the start is replaced and the search goes on after it;
      the inserted text is not searched again. */
  lemma ReplaceAllMatch(search: string, replace: string, b: string)
    requires search != []
    ensures ReplaceAll(search, replace, search + b) == replace + ReplaceAll(search, replace, b)
  {
    var s := search + b;
    assert s[..|search|] == search && s[|search|..] == b;
  }

  /** A prefix that does not contain the first character of the search string
      is copied as it is. */
  lemma {:induction false} ReplaceAllSkip(search: string, replace: string, a: string, b: string)
    requires search != [] && search[0] !in a
    ensures ReplaceAll(search, replace, a + b) == a + ReplaceAll(search, replace, b)
    decreases |a|
  {
    if a == [] {
      assert a + b == b;
    } else {
      var s, tail := a + b, a[1..];
      var rest := ReplaceAll(search, replace, b);
      assert ReplaceAll(search, replace, s) == [a[0]] + ReplaceAll(search, replace, tail + b) by {
        assert s[0] == a[0] && s[1..] == tail + b;
        ReplaceAllNoMatchAt(search, replace, s);
      }
      assert ReplaceAll(search, replace, tail + b) == tail + rest by {
        assert search[0] !in tail by {
          assert forall x :: x in tail ==> x in a;
        }
        ReplaceAllSkip(search, replace, tail, b);
      }
      assert a == [a[0]] + tail;
    }
  }

  /** With a one-character search string, the first character is replaced or
      kept on its own. */
  lemma ReplaceCharHead(c: char, replace: string, s: string)
    requires s != []
    ensures ReplaceAll([c], replace, s) == (if s[0] == c then replace else [s[0]]) + ReplaceAll([c], replace, s[1..])
  {
    assert s[..1] == [s[0]];
  }

  /** The head step of `ReplaceCharHead` for a subject `a + b` with `a` non-empty. */
  lemma ReplaceCharHeadConcat(c: char, replace: string, a: string, b: string)
    requires a != []
    ensures ReplaceAll([c], replace, a + b) ==
            (if a[0] == c then replace else [a[0]]) + ReplaceAll([c], replace, a[1..] + b)
  {
    var s := a + b;
    assert s[0] == a[0] && s[1..] == a[1..] + b;
    ReplaceCharHead(c, replace, s);
  }

  /** Replacing a one-character search string distributes over concatenation. */
  lemma {:induction false} ReplaceCharConcat(c: char, replace: string, a: string, b: string)
    ensures StrReplace([c], replace, a + b) == StrReplace([c], replace, a) + StrReplace([c], replace, b)
    decreases |a|
  {
    if a == [] {
      assert a + b == b;
      assert ReplaceAll([c], replace, a) == [];
    } else {
      var head := if a[0] == c then replace else [a[0]];
      var x, y := ReplaceAll([c], replace, a[1..]), ReplaceAll([c], replace, b);
      ReplaceCharHeadConcat(c, replace, a, b);
      ReplaceCharHead(c, replace, a);
      ReplaceCharConcat(c, replace, a[1..], b);
      assert head + (x + y) == (head + x) + y;
    }
  }

  /** After replacing a character by a string without it, the character is
      gone. */
  lemma {:induction false} ReplaceCharRemoves(c: char, replace: string, s: string)
    requires c !in replace
    ensures c !in ReplaceAll([c], replace, s)
    decreases |s|
  {
    if s != [] {
      ReplaceCharHead(c, replace, s);
      ReplaceCharRemoves(c, replace, s[1..]);
    }
  }

  /** Replacing a one-character search string in a one-character subject. */
  lemma ReplaceCharSingle(c: char, replace: string, x: char)
    ensures StrReplace([c], replace, [x]) == if x == c then replace else [x]
  {
    assert [x][..1] == [x];
    assert [x][1..] == [];
    assert ReplaceAll([c], replace, []) == [];
  }

  // ---------------------------------------------------------------------------
  // str_replace with arrays of one-character search strings, compared with a
  // substitution applied to each character once.

  /** The one-character search strings made of `cs`. */
  function CharSearches(cs: seq<char>): (searches: seq<string>)
    ensures |searches| == |cs| && forall i :: 0 <= i < |cs| ==> searches[i] == [cs[i]]
  {
    seq(|cs|, i requires 0 <= i < |cs| => [cs[i]])
  }

  /** What a character becomes under a substitution table: the replacement of
      the first search character equal to it, or the character itself. */
  function SubstChar(cs: seq<char>, rs: seq<string>, x: char): string
    requires |cs| == |rs|
  {
    if cs == [] then [x] else if x == cs[0] then rs[0] else SubstChar(cs[1..], rs[1..], x)
  }

  /** Every character substituted once, in place. */
  function SubstAll(cs: seq<char>, rs: seq<string>, s: string): string
    requires |cs| == |rs|
  {
    if s == [] then [] else SubstChar(cs, rs, s[0]) + SubstAll(cs, rs, s[1..])
  }

  /** No replacement contains a search character that is applied after it. */
  predicate NoLaterSearch(cs: seq<char>, rs: seq<string>)
    requires |cs| == |rs|
  {
    forall i, j :: 0 <= i < j < |cs| ==> cs[j] !in rs[i]
  }

  lemma {:induction false} SubstAllConcat(cs: seq<char>, rs: seq<string>, a: string, b: string)
    requires |cs| == |rs|
    ensures SubstAll(cs, rs, a + b) == SubstAll(cs, rs, a) + SubstAll(cs, rs, b)
    decreases |a|
  {
    if a == [] {
      assert a + b == b;
    } else {
      assert (a + b)[0] == a[0] && (a + b)[1..] == a[1..] + b;
      SubstAllConcat(cs, rs, a[1..], b);
    }
  }

  /** A string without any search character is left as it is. */
  lemma {:induction false} SubstAllUntouched(cs: seq<char>, rs: seq<string>, s: string)
    requires |cs| == |rs|
    requires forall j :: 0 <= j < |cs| ==> cs[j] !in s
    ensures SubstAll(cs, rs, s) == s
    decreases |s|
  {
    if s != [] {
      SubstCharUntouched(cs, rs, s[0]);
      SubstAllUntouched(cs, rs, s[1..]);
      assert s == [s[0]] + s[1..];
    }
  }

  lemma {:induction false} SubstCharUntouched(cs: seq<char>, rs: seq<string>, x: char)
    requires |cs| == |rs|
    requires forall j :: 0 <= j < |cs| ==> cs[j] != x
    ensures SubstChar(cs, rs, x) == [x]
    decreases |cs|
  {
    if cs != [] {
      assert cs[0] != x;
      SubstCharUntouched(cs[1..], rs[1..], x);
    }
  }

  /** A character is replaced by the replacement of the first search
      character equal to it. */
  lemma {:induction false} SubstCharFirst(cs: seq<char>, rs: seq<string>, x: char, k: nat)
    requires |cs| == |rs| && k < |cs| && cs[k] == x
    requires forall i :: 0 <= i < k ==> cs[i] != x
    ensures SubstChar(cs, rs, x) == rs[k]
    decreases k
  {
    if k > 0 {
      assert cs[0] != x;
      SubstCharFirst(cs[1..], rs[1..], x, k - 1);
    }
  }

  /** Replacing the first search character, then substituting with the rest of
      the table, is substituting with the whole table. */
  lemma {:induction false} FirstStage(cs: seq<char>, rs: seq<string>, s: string)
    requires |cs| == |rs| && |cs| > 0 && NoLaterSearch(cs, rs)
    ensures SubstAll(cs[1..], rs[1..], StrReplace([cs[0]], rs[0], s)) == SubstAll(cs, rs, s)
    decreases |s|
  {
    var c, r := cs[0], rs[0];
    if s == [] {
      assert StrReplace([c], r, s) == [];
    } else {
      var x, t := s[0], s[1..];
      assert s == [x] + t;
      ReplaceCharConcat(c, r, [x], t);
      ReplaceCharSingle(c, r, x);
      SubstAllConcat(cs[1..], rs[1..], StrReplace([c], r, [x]), StrReplace([c], r, t));
      FirstStage(cs, rs, t);
      if x == c {
        forall j | 0 <= j < |cs[1..]| ensures cs[1..][j] !in r {
          assert cs[1..][j] == cs[j + 1];
        }
        SubstAllUntouched(cs[1..], rs[1..], r);
      } else {
        assert SubstAll(cs[1..], rs[1..], [x]) == SubstChar(cs[1..], rs[1..], x) + SubstAll(cs[1..], rs[1..], []);
      }
    }
  }

  /** `str_replace` with one-character searches, applied one after the other,
      is a per-character substitution when no replacement holds a character
      searched for later: nothing is replaced twice. */
  lemma {:induction false} SequentialCharReplace(cs: seq<char>, rs: seq<string>, s: string)
    requires |cs| == |rs| && NoLaterSearch(cs, rs)
    ensures StrReplaceArrays(CharSearches(cs), rs, s) == SubstAll(cs, rs, s)
    decreases |cs|
  {
    if cs == [] {
      SubstAllUntouched(cs, rs, s);
    } else {
      var searches := CharSearches(cs);
      assert searches[1..] == CharSearches(cs[1..]);
      var s' := StrReplace([cs[0]], rs[0], s);
      assert StrReplaceArrays(searches, rs, s) == StrReplaceArrays(searches[1..], rs[1..], s');
      SequentialCharReplace(cs[1..], rs[1..], s');
      FirstStage(cs, rs, s);
    }
  }

  /** `implode($glue, $pieces)` */
  function Implode(glue: string, pieces: seq<string>): string {
    if pieces == [] then ""
    else if |pieces| == 1 then pieces[0]
    else pieces[0] + glue + Implode(glue, pieces[1..])
  }

  // ---------------------------------------------------------------------------
  // is_numeric, for strings (PHP 8): optional leading and trailing whitespace,
  // an optional sign, then an integer or decimal number with an optional
  // exponent. Hexadecimal, binary and octal forms are not numeric.

  predicate IsWhitespace(c: char) {
    c == ' ' || c == '\t' || c == '\n' || c == '\r' || c == '\U{B}' || c == '\U{C}'
  }

  predicate IsDigit(c: char) {
    '0' <= c <= '9'
  }

  /** The number of leading decimal digits of s. */
  function DigitRun(s: string): (n: nat)
    ensures n <= |s|
  {
    if |s| > 0 && IsDigit(s[0]) then 1 + DigitRun(s[1..]) else 0
  }

  function TrimLeadingWhitespace(s: string): string {
    if |s| > 0 && IsWhitespace(s[0]) then TrimLeadingWhitespace(s[1..]) else s
  }

  function TrimTrailingWhitespace(s: string): string {
    if |s| > 0 && IsWhitespace(s[|s| - 1]) then TrimTrailingWhitespace(s[..|s| - 1]) else s
  }

  function DropSign(s: string): string {
    if |s| > 0 && (s[0] == '+' || s[0] == '-') then s[1..] else s
  }

  /** `[eE][+-]?[0-9]+`, or nothing at all. */
  predicate IsExponentOrEmpty(s: string) {
    s == [] || (
      (s[0] == 'e' || s[0] == 'E') &&
      var digits := DropSign(s[1..]);
      |digits| > 0 && DigitRun(digits) == |digits|)
  }

  /** `[0-9]+ ('.' [0-9]*)?` or `'.' [0-9]+`, then an optional exponent. */
  predicate IsUnsignedNumber(s: string) {
    var whole := DigitRun(s);
    if whole < |s| && s[whole] == '.' then
      var fraction := DigitRun(s[whole + 1..]);
      whole + fraction > 0 && IsExponentOrEmpty(s[whole + 1 + fraction..])
    else
      whole > 0 && IsExponentOrEmpty(s[whole..])
  }

  /** `is_numeric($s)` for a string. */
  predicate IsNumericString(s: string) {
    IsUnsignedNumber(DropSign(TrimTrailingWhitespace(TrimLeadingWhitespace(s))))
  }

  /** A string that starts with a colon is never numeric. */
  lemma ColonPrefixedNotNumeric(s: string)
    requires |s| > 0 && s[0] == ':'
    ensures !IsNumericString(s)
  {
    var t := TrimTrailingWhitespace(TrimLeadingWhitespace(s));
    assert TrimLeadingWhitespace(s) == s;
    TrimTrailingKeepsHead(s);
    assert DropSign(t) == t;
  }

  lemma {:induction false} TrimTrailingKeepsHead(s: string)
    requires |s| > 0 && !IsWhitespace(s[0])
    ensures var t := TrimTrailingWhitespace(s); |t| > 0 && t[0] == s[0]
    decreases |s|
  {
    if IsWhitespace(s[|s| - 1]) {
      TrimTrailingKeepsHead(s[..|s| - 1]);
    }
  }
}

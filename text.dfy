/**
 * The JavaScript string operations the broadcaster relies on, stated over
 * `seq<char>`: truthiness of an optional string, `trim`, `split` on one
 * character, `join`, `startsWith`, ASCII `toUpperCase` and the decimal
 * rendering of a count inside a template string.
 */
module Text {
  import opened Wrappers

  /** `Boolean(x)` / `x ? … : …` for a value of type `string | undefined`. */
  predicate IsTruthy(s: Option<string>) {
    s.Some? && s.value != ""
  }

  // ---------------------------------------------------------------------------
  // trim

  /** The code points ECMAScript's `String.prototype.trim` removes: WhiteSpace and LineTerminator. */
  predicate IsWhitespace(c: char) {
    || c == '\t' || c == '\n' || c == '\U{000B}' || c == '\U{000C}' || c == '\r' || c == ' '
    || c == '\U{00A0}' || c == '\U{1680}' || ('\U{2000}' <= c <= '\U{200A}')
    || c == '\U{2028}' || c == '\U{2029}' || c == '\U{202F}' || c == '\U{205F}'
    || c == '\U{3000}' || c == '\U{FEFF}'
  }

  /** A string `trim` leaves as it is: it neither starts nor ends with whitespace. */
  predicate IsTrimmed(s: string) {
    s == [] || (!IsWhitespace(s[0]) && !IsWhitespace(s[|s| - 1]))
  }

  function TrimStart(s: string): (r: string)
    ensures |r| <= |s| && r == s[|s| - |r|..]
    ensures forall k :: 0 <= k < |s| - |r| ==> IsWhitespace(s[k])
    ensures r != [] ==> !IsWhitespace(r[0])
  {
    if s != [] && IsWhitespace(s[0]) then TrimStart(s[1..]) else s
  }

  function TrimEnd(s: string): (r: string)
    ensures |r| <= |s| && r == s[..|r|]
    ensures forall k :: |r| <= k < |s| ==> IsWhitespace(s[k])
    ensures r != [] ==> !IsWhitespace(r[|r| - 1])
  {
    if s != [] && IsWhitespace(s[|s| - 1]) then TrimEnd(s[..|s| - 1]) else s
  }

  /** `s.trim()`: the longest slice of `s` with whitespace cut from both ends. */
  function Trim(s: string): (r: string)
    ensures IsTrimmed(r)
    ensures |r| <= |s|
    ensures forall c :: c in r ==> c in s
  {
    var t := TrimStart(s);
    var r := TrimEnd(t);
    assert forall c :: c in r ==> c in t;
    assert forall c :: c in t ==> c in s;
    r
  }

  /** `r` is the slice of `s` starting at `a`, and everything of `s` before and after it is whitespace. */
  predicate CutAt(s: string, r: string, a: nat) {
    && a + |r| <= |s| && r == s[a..a + |r|]
    && (forall k :: 0 <= k < a ==> IsWhitespace(s[k]))
    && (forall k :: a + |r| <= k < |s| ==> IsWhitespace(s[k]))
  }

  /** `trim` cuts whitespace off both ends and nothing else: the result is a slice of the input with only whitespace around it. */
  lemma TrimCutsEnds(s: string)
    ensures exists a: nat :: CutAt(s, Trim(s), a)
  {
    var t := TrimStart(s);
    CutAtOfParts(s, t, TrimEnd(t));
    assert CutAt(s, Trim(s), |s| - |t|);
  }

  /** Cutting a whitespace prefix, then a whitespace suffix, leaves a slice with whitespace around it. */
  lemma CutAtOfParts(s: string, t: string, r: string)
    requires |t| <= |s| && t == s[|s| - |t|..] && forall k :: 0 <= k < |s| - |t| ==> IsWhitespace(s[k])
    requires |r| <= |t| && r == t[..|r|] && forall k :: |r| <= k < |t| ==> IsWhitespace(t[k])
    ensures CutAt(s, r, |s| - |t|)
  {
    var a := |s| - |t|;
    assert r == s[a..a + |r|];
    forall k | a + |r| <= k < |s|
      ensures IsWhitespace(s[k])
    {
      assert s[k] == t[k - a];
    }
  }

  /** `trim` gives the empty string exactly on whitespace-only text. */
  lemma TrimBlank(s: string)
    ensures (forall k :: 0 <= k < |s| ==> IsWhitespace(s[k])) <==> Trim(s) == []
  {
    var t := TrimStart(s);
    assert t != [] ==> t[0] == s[|s| - |t|];
  }

  lemma TrimOfTrimmed(s: string)
    requires IsTrimmed(s)
    ensures Trim(s) == s
  {
  }

  lemma TrimIdempotent(s: string)
    ensures Trim(Trim(s)) == Trim(s)
  {
    TrimOfTrimmed(Trim(s));
  }

  // ---------------------------------------------------------------------------
  // split and join

  /** `s.split(sep)` for a one-character separator: the pieces between separators, always at least one. */
  function Split(s: string, sep: char): (r: seq<string>)
    ensures |r| >= 1
    ensures forall i :: 0 <= i < |r| ==> sep !in r[i]
    ensures forall i, c :: 0 <= i < |r| && c in r[i] ==> c in s
  {
    if s == [] then [[]]
    else
      var rest := Split(s[1..], sep);
      assert forall c :: c in s[1..] ==> c in s;
      if s[0] == sep then [[]] + rest
      else [[s[0]] + rest[0]] + rest[1..]
  }

  /** `xs.join(sep)`: the empty list joins to the empty string. */
  function Join(xs: seq<string>, sep: string): string {
    if |xs| == 0 then []
    else if |xs| == 1 then xs[0]
    else xs[0] + sep + Join(xs[1..], sep)
  }

  lemma {:induction false} JoinConsHead(c: char, x: string, tail: seq<string>, sep: string)
    ensures Join([[c] + x] + tail, sep) == [c] + Join([x] + tail, sep)
  {
    var xs, ys := [[c] + x] + tail, [x] + tail;
    assert xs[1..] == tail == ys[1..];
  }

  /** Joining the pieces of a split with the separator gives back the original string. */
  lemma {:induction false} JoinSplit(s: string, sep: char)
    ensures Join(Split(s, sep), [sep]) == s
  {
    if s != [] {
      var rest := Split(s[1..], sep);
      JoinSplit(s[1..], sep);
      if s[0] == sep {
        var r := [[]] + rest;
        assert r[1..] == rest;
        assert Join(r, [sep]) == [] + [sep] + Join(rest, [sep]);
      } else {
        assert rest == [rest[0]] + rest[1..];
        JoinConsHead(s[0], rest[0], rest[1..], [sep]);
      }
    }
  }

  /** A separator splits the string into the pieces on its left followed by those on its right. */
  lemma {:induction false} SplitAroundSeparator(a: string, b: string, sep: char)
    ensures Split(a + [sep] + b, sep) == Split(a, sep) + Split(b, sep)
  {
    var s := a + [sep] + b;
    if a == [] {
      assert s[1..] == b;
    } else {
      assert s[1..] == a[1..] + [sep] + b;
      SplitAroundSeparator(a[1..], b, sep);
    }
  }

  lemma {:induction false} SplitWithoutSeparator(s: string, sep: char)
    requires sep !in s
    ensures Split(s, sep) == [s]
  {
    if s != [] {
      SplitWithoutSeparator(s[1..], sep);
      assert [s[0]] + s[1..] == s;
    }
  }

  /** Splitting a join of separator-free pieces gives back the pieces. */
  lemma {:induction false} SplitJoin(xs: seq<string>, sep: char)
    requires |xs| >= 1
    requires forall i :: 0 <= i < |xs| ==> sep !in xs[i]
    ensures Split(Join(xs, [sep]), sep) == xs
  {
    SplitWithoutSeparator(xs[0], sep);
    if |xs| > 1 {
      SplitJoin(xs[1..], sep);
      SplitAroundSeparator(xs[0], Join(xs[1..], [sep]), sep);
    }
  }

  /** A join of pieces that all avoid `c`, with a separator that avoids `c`, avoids `c`. */
  lemma {:induction false} JoinAvoids(xs: seq<string>, sep: string, c: char)
    requires forall i :: 0 <= i < |xs| ==> c !in xs[i]
    requires c !in sep
    ensures c !in Join(xs, sep)
  {
    if |xs| > 1 {
      JoinAvoids(xs[1..], sep, c);
    }
  }

  // ---------------------------------------------------------------------------
  // split(",").map(trim).filter(Boolean)

  /** Trims each piece and keeps the non-empty results, in order. */
  function TrimAndDropBlank(pieces: seq<string>): (r: seq<string>)
    ensures |r| <= |pieces|
    ensures forall i :: 0 <= i < |r| ==> r[i] != [] && IsTrimmed(r[i])
  {
    if pieces == [] then []
    else
      var t := Trim(pieces[0]);
      var rest := TrimAndDropBlank(pieces[1..]);
      if t == [] then rest else [t] + rest
  }

  /** A character none of the pieces holds is in none of the kept entries. */
  lemma {:induction false} TrimAndDropBlankAvoids(pieces: seq<string>, c: char)
    requires forall j :: 0 <= j < |pieces| ==> c !in pieces[j]
    ensures forall i :: 0 <= i < |TrimAndDropBlank(pieces)| ==> c !in TrimAndDropBlank(pieces)[i]
  {
    if pieces != [] {
      assert forall j :: 0 <= j < |pieces[1..]| ==> pieces[1..][j] == pieces[j + 1];
      TrimAndDropBlankAvoids(pieces[1..], c);
    }
  }

  lemma {:induction false} TrimAndDropBlankAppend(xs: seq<string>, ys: seq<string>)
    ensures TrimAndDropBlank(xs + ys) == TrimAndDropBlank(xs) + TrimAndDropBlank(ys)
  {
    if xs != [] {
      assert (xs + ys)[0] == xs[0];
      assert (xs + ys)[1..] == xs[1..] + ys;
      TrimAndDropBlankAppend(xs[1..], ys);
    } else {
      assert xs + ys == ys;
    }
  }

  lemma {:induction false} TrimAndDropBlankKeepsClean(xs: seq<string>)
    requires forall i :: 0 <= i < |xs| ==> xs[i] != [] && IsTrimmed(xs[i])
    ensures TrimAndDropBlank(xs) == xs
  {
    if xs != [] {
      TrimOfTrimmed(xs[0]);
      TrimAndDropBlankKeepsClean(xs[1..]);
    }
  }

  /** The comma-list reading shared by the environment loader and the custom-hashtag field. */
  function CommaList(s: string): (r: seq<string>)
    ensures forall i :: 0 <= i < |r| ==> r[i] != [] && IsTrimmed(r[i]) && ',' !in r[i]
  {
    TrimAndDropBlankAvoids(Split(s, ','), ',');
    TrimAndDropBlank(Split(s, ','))
  }

  /** Text made only of blanks and commas lists nothing. */
  lemma {:induction false} CommaListOfBlank(s: string)
    requires forall k :: 0 <= k < |s| ==> IsWhitespace(s[k]) || s[k] == ','
    ensures CommaList(s) == []
  {
    var pieces := Split(s, ',');
    forall i | 0 <= i < |pieces|
      ensures Trim(pieces[i]) == []
    {
      forall k | 0 <= k < |pieces[i]|
        ensures IsWhitespace(pieces[i][k])
      {
        assert pieces[i][k] in pieces[i];
        assert pieces[i][k] in s;
      }
    }
    AllBlankDropped(pieces);
  }

  lemma {:induction false} AllBlankDropped(pieces: seq<string>)
    requires forall i :: 0 <= i < |pieces| ==> Trim(pieces[i]) == []
    ensures TrimAndDropBlank(pieces) == []
  {
    if pieces != [] {
      AllBlankDropped(pieces[1..]);
    }
  }

  /** A comma splits the list into the entries on its left followed by those on its right. */
  lemma CommaListAroundComma(a: string, b: string)
    ensures CommaList(a + "," + b) == CommaList(a) + CommaList(b)
  {
    SplitAroundSeparator(a, b, ',');
    TrimAndDropBlankAppend(Split(a, ','), Split(b, ','));
  }

  /** Text with no comma lists its trimmed self, unless that is blank. */
  lemma CommaListOfPiece(s: string)
    requires ',' !in s
    ensures CommaList(s) == if Trim(s) == [] then [] else [Trim(s)]
  {
    SplitWithoutSeparator(s, ',');
  }

  /** Text holding a character that is neither whitespace nor a comma lists at least one entry. */
  lemma {:induction false} CommaListNonBlank(s: string)
    requires exists k :: 0 <= k < |s| && !IsWhitespace(s[k]) && s[k] != ','
    ensures CommaList(s) != []
    decreases |s|
  {
    var k :| 0 <= k < |s| && !IsWhitespace(s[k]) && s[k] != ',';
    if ',' in s {
      var j :| 0 <= j < |s| && s[j] == ',';
      var a, b := s[..j], s[j + 1..];
      assert s == a + "," + b;
      CommaListAroundComma(a, b);
      if k < j {
        assert a[k] == s[k];
        CommaListNonBlank(a);
      } else {
        assert b[k - j - 1] == s[k];
        CommaListNonBlank(b);
      }
    } else {
      CommaListOfPiece(s);
      TrimBlank(s);
    }
  }

  /** Clean entries joined with commas are read back unchanged. */
  lemma CommaListOfJoin(xs: seq<string>)
    requires forall i :: 0 <= i < |xs| ==> xs[i] != [] && IsTrimmed(xs[i]) && ',' !in xs[i]
    ensures CommaList(Join(xs, ",")) == xs
  {
    if xs == [] {
      assert Split([], ',') == [[]];
    } else {
      SplitJoin(xs, ',');
      TrimAndDropBlankKeepsClean(xs);
    }
  }

  // ---------------------------------------------------------------------------
  // startsWith and prefixing

  predicate StartsWith(s: string, prefix: string) {
    |prefix| <= |s| && s[..|prefix|] == prefix
  }

  /** `s.startsWith(p) ? s : p + s`. */
  function EnsurePrefix(s: string, prefix: string): (r: string)
    ensures StartsWith(r, prefix)
    ensures StartsWith(s, prefix) ==> r == s
    ensures !StartsWith(s, prefix) ==> r == prefix + s
  {
    if StartsWith(s, prefix) then s else prefix + s
  }

  lemma EnsurePrefixIdempotent(s: string, prefix: string)
    ensures EnsurePrefix(EnsurePrefix(s, prefix), prefix) == EnsurePrefix(s, prefix)
  {
  }

  /** One hashtag as it is printed: with a leading `#` unless it already has one. */
  function TagWord(tag: string): (r: string)
    ensures StartsWith(r, "#")
    ensures r[1..] == tag || r == tag
  {
    EnsurePrefix(tag, "#")
  }

  function TagWords(tags: seq<string>): (r: seq<string>)
    ensures |r| == |tags|
    ensures forall i :: 0 <= i < |tags| ==> r[i] == TagWord(tags[i])
  {
    seq(|tags|, i requires 0 <= i < |tags| => TagWord(tags[i]))
  }

  // ---------------------------------------------------------------------------
  // toUpperCase

  function UpperChar(c: char): (d: char) {
    if 'a' <= c <= 'z' then (c as int - 'a' as int + 'A' as int) as char else c
  }

  /**
   * `s.toUpperCase()` restricted to ASCII letters: no lower-case ASCII letter
   * is left, each one became its capital, and every other code point is kept.
   */
  function ToUpperAscii(s: string): (r: string)
    ensures |r| == |s|
    ensures forall i :: 0 <= i < |r| ==> !('a' <= r[i] <= 'z')
    ensures forall i :: 0 <= i < |s| && 'a' <= s[i] <= 'z' ==> r[i] as int == s[i] as int - 32
    ensures forall i :: 0 <= i < |s| && !('a' <= s[i] <= 'z') ==> r[i] == s[i]
  {
    seq(|s|, i requires 0 <= i < |s| => UpperChar(s[i]))
  }

  // ---------------------------------------------------------------------------
  // numbers inside template strings

  predicate IsDigit(c: char) {
    '0' <= c <= '9'
  }

  function DigitChar(d: nat): (c: char)
    requires d < 10
    ensures IsDigit(c) && c as int - '0' as int == d
  {
    ('0' as int + d) as char
  }

  /** `${n}` for a non-negative integer: its decimal digits, without leading zeros. */
  function NatToString(n: nat): (r: string)
    ensures |r| >= 1
    ensures forall i :: 0 <= i < |r| ==> IsDigit(r[i])
    ensures r[0] == '0' ==> n == 0
  {
    if n < 10 then [DigitChar(n)] else NatToString(n / 10) + [DigitChar(n % 10)]
  }

  /** The value of a string of decimal digits. */
  function DigitsValue(s: string): nat
    requires forall i :: 0 <= i < |s| ==> IsDigit(s[i])
  {
    if s == [] then 0
    else
      assert IsDigit(s[|s| - 1]);
      DigitsValue(s[..|s| - 1]) * 10 + (s[|s| - 1] as int - '0' as int)
  }

  /** The printed count reads back as the count. */
  lemma {:induction false} NatToStringValue(n: nat)
    ensures DigitsValue(NatToString(n)) == n
  {
    if n >= 10 {
      var r := NatToString(n);
      NatToStringValue(n / 10);
      assert r[..|r| - 1] == NatToString(n / 10);
    }
  }
}

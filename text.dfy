/** The few .NET string operations the core relies on, written out:
    char.IsWhiteSpace, string.IsNullOrWhiteSpace, string.Trim,
    string.Split(char), string.Join(char, ...) and ordinal case-insensitive
    equality. */
module Text {

  /** char.IsWhiteSpace: the Unicode separators (Zs, Zl, Zp) and the
      control characters U+0009..U+000D, U+0085. */
  predicate IsWhiteSpace(c: char) {
    ('\U{0009}' <= c <= '\U{000D}') || c == ' ' || c == '\U{0085}' || c == '\U{00A0}' ||
    c == '\U{1680}' || ('\U{2000}' <= c <= '\U{200A}') || c == '\U{2028}' || c == '\U{2029}' ||
    c == '\U{202F}' || c == '\U{205F}' || c == '\U{3000}'
  }

  /** string.IsNullOrWhiteSpace (a null string is modelled as ""). */
  predicate IsBlank(s: string) {
    forall i :: 0 <= i < |s| ==> IsWhiteSpace(s[i])
  }

  /** The leading-whitespace half of string.Trim. */
  function TrimStart(s: string): string
  {
    if |s| > 0 && IsWhiteSpace(s[0]) then TrimStart(s[1..]) else s
  }

  /** The trailing-whitespace half of string.Trim. */
  function TrimEnd(s: string): string
  {
    if |s| > 0 && IsWhiteSpace(s[|s| - 1]) then TrimEnd(s[..|s| - 1]) else s
  }

  /** string.Trim(): the input without its leading and trailing whitespace. */
  function Trim(s: string): string
  {
    TrimEnd(TrimStart(s))
  }

  /** TrimStart drops exactly the leading whitespace: a suffix remains,
      everything dropped is whitespace, and what remains does not start
      with whitespace. */
  lemma {:induction false} TrimStartFacts(s: string)
    ensures var r := TrimStart(s);
            |r| <= |s| && r == s[|s| - |r|..] &&
            (forall i :: 0 <= i < |s| - |r| ==> IsWhiteSpace(s[i])) &&
            (r != [] ==> !IsWhiteSpace(r[0]))
  {
    if |s| > 0 && IsWhiteSpace(s[0]) {
      TrimStartFacts(s[1..]);
    }
  }

  /** TrimEnd drops exactly the trailing whitespace. */
  lemma {:induction false} TrimEndFacts(s: string)
    ensures var r := TrimEnd(s);
            |r| <= |s| && r == s[..|r|] &&
            (forall i :: |r| <= i < |s| ==> IsWhiteSpace(s[i])) &&
            (r != [] ==> !IsWhiteSpace(r[|r| - 1]))
  {
    if |s| > 0 && IsWhiteSpace(s[|s| - 1]) {
      TrimEndFacts(s[..|s| - 1]);
    }
  }

  /** Trim is empty exactly for blank strings, and otherwise neither starts
      nor ends with whitespace; it is a piece of its input. */
  lemma TrimFacts(s: string)
    ensures var r := Trim(s);
            |r| <= |s| && (r == [] <==> IsBlank(s)) &&
            (r != [] ==> !IsWhiteSpace(r[0]) && !IsWhiteSpace(r[|r| - 1])) &&
            (var k := |s| - |TrimStart(s)|; 0 <= k && k + |r| <= |s| && r == s[k..k + |r|])
  {
    var t := TrimStart(s);
    TrimStartFacts(s);
    TrimEndFacts(t);
    var r := TrimEnd(t);
    assert r != [] ==> r[0] == t[0];
    var k := |s| - |t|;
    assert r == s[k..k + |r|];
    if r != [] {
      assert !IsWhiteSpace(s[k]);
    }
  }

  /** Trimming twice is trimming once. */
  lemma TrimIdempotent(s: string)
    ensures Trim(Trim(s)) == Trim(s)
  {
    var r := Trim(s);
    TrimFacts(s);
    assert TrimStart(r) == r;
    assert TrimEnd(r) == r;
  }

  /** A string that is its own trim and not empty is not blank. */
  lemma TrimmedNonEmptyNotBlank(s: string)
    requires s != [] && Trim(s) == s
    ensures !IsBlank(s)
  {
    TrimFacts(s);
  }

  /** Every character of Trim(s) comes from s. */
  lemma TrimChars(s: string, c: char)
    requires c in Trim(s)
    ensures c in s
  {
    TrimFacts(s);
    var r := Trim(s);
    var k := |s| - |TrimStart(s)|;
    var j :| 0 <= j < |r| && r[j] == c;
    assert s[k + j] == c;
  }

  /** The upper-case mapping used by StringComparison.OrdinalIgnoreCase,
      on ASCII letters. */
  function ToUpperOrdinal(c: char): (r: char)
  {
    if 'a' <= c <= 'z' then (c as int - 32) as char else c
  }

  /** The string with every character mapped by ToUpperOrdinal. */
  function UpperOrdinal(s: string): (r: string)
    ensures |r| == |s| && forall i :: 0 <= i < |s| ==> r[i] == ToUpperOrdinal(s[i])
  {
    if |s| == 0 then "" else [ToUpperOrdinal(s[0])] + UpperOrdinal(s[1..])
  }

  /** string.Equals(a, b, StringComparison.OrdinalIgnoreCase): equal once
      both are upper-cased. */
  predicate EqualsIgnoreCase(a: string, b: string) {
    UpperOrdinal(a) == UpperOrdinal(b)
  }

  /** string.Split(sep): the pieces between separators, empty ones included;
      there is always at least one piece. */
  function Split(s: string, sep: char): (r: seq<string>)
    ensures |r| >= 1
    ensures forall i :: 0 <= i < |r| ==> sep !in r[i]
  {
    if |s| == 0 then [""]
    else
      var rest := Split(s[1..], sep);
      if s[0] == sep then [""] + rest
      else [[s[0]] + rest[0]] + rest[1..]
  }

  /** string.Join(sep, parts). */
  function Join(sep: char, parts: seq<string>): string
  {
    if |parts| == 0 then ""
    else if |parts| == 1 then parts[0]
    else parts[0] + [sep] + Join(sep, parts[1..])
  }

  /** Joining the pieces of a split with the same separator gives back the
      original string. */
  lemma {:induction false} JoinSplit(s: string, sep: char)
    ensures Join(sep, Split(s, sep)) == s
  {
    if |s| > 0 {
      var rest := Split(s[1..], sep);
      JoinSplit(s[1..], sep);
      if s[0] == sep {
        assert Split(s, sep) == [""] + rest;
      } else {
        var r := Split(s, sep);
        assert r == [[s[0]] + rest[0]] + rest[1..];
        if |rest| == 1 {
          assert Join(sep, rest) == rest[0];
        } else {
          assert Join(sep, rest) == rest[0] + [sep] + Join(sep, rest[1..]);
          assert r[1..] == rest[1..];
        }
      }
    }
  }

  /** Splitting a separator-free prefix followed by more text. */
  lemma {:induction false} SplitFreePrefix(a: string, b: string, sep: char)
    requires sep !in a
    ensures var rb := Split(b, sep);
            Split(a + b, sep) == [a + rb[0]] + rb[1..]
  {
    if |a| > 0 {
      SplitFreePrefix(a[1..], b, sep);
      assert (a + b)[1..] == a[1..] + b;
      assert [a[0]] + (a[1..] + Split(b, sep)[0]) == a + Split(b, sep)[0];
    } else {
      var rb := Split(b, sep);
      assert a + b == b;
      assert a + rb[0] == rb[0];
      assert rb == [rb[0]] + rb[1..];
    }
  }

  /** Splitting a join of separator-free parts gives back the parts. */
  lemma {:induction false} SplitJoin(parts: seq<string>, sep: char)
    requires |parts| >= 1
    requires forall i :: 0 <= i < |parts| ==> sep !in parts[i]
    ensures Split(Join(sep, parts), sep) == parts
  {
    if |parts| == 1 {
      SplitFreePrefix(parts[0], "", sep);
      assert parts[0] + "" == parts[0];
    } else {
      var tail := Join(sep, parts[1..]);
      SplitJoin(parts[1..], sep);
      SplitFreePrefix(parts[0], [sep] + tail, sep);
      assert Join(sep, parts) == parts[0] + ([sep] + tail);
      assert ([sep] + tail)[1..] == tail;
      var rs := Split([sep] + tail, sep);
      assert rs == [""] + Split(tail, sep);
      assert rs[0] == "" && rs[1..] == parts[1..];
      assert parts[0] + rs[0] == parts[0];
      assert parts == [parts[0]] + parts[1..];
    }
  }

  /** Joining one more part appends the separator and the part. */
  lemma {:induction false} JoinSnoc(sep: char, parts: seq<string>, x: string)
    requires |parts| >= 1
    ensures Join(sep, parts + [x]) == Join(sep, parts) + [sep] + x
  {
    if |parts| == 1 {
      assert (parts + [x])[1..] == [x];
    } else {
      assert (parts + [x])[1..] == parts[1..] + [x];
      JoinSnoc(sep, parts[1..], x);
    }
  }

  /** A string holding the separator splits into at least two parts. */
  lemma {:induction false} SplitHasSeparator(s: string, sep: char)
    requires sep in s
    ensures |Split(s, sep)| >= 2
  {
    if s[0] != sep {
      assert sep in s[1..];
      SplitHasSeparator(s[1..], sep);
    }
  }
}

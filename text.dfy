/** The string operations the server relies on: `toLowerCase`, `includes`,
    and `join`, each with an independent reference definition. */
module Text {

  /** Lower-cases an ASCII upper-case letter; every other character is kept. */
  function LowerChar(c: char): char {
    if 'A' <= c <= 'Z' then (c as int - 'A' as int + 'a' as int) as char else c
  }

  /** `s.toLowerCase()`, restricted to ASCII letters: every upper-case
      letter becomes its lower-case form and every other character is kept. */
  function ToLower(s: string): (r: string)
    ensures |r| == |s|
    ensures forall i :: 0 <= i < |s| && 'A' <= s[i] <= 'Z' ==> r[i] == (s[i] as int + 32) as char
    ensures forall i :: 0 <= i < |s| && !('A' <= s[i] <= 'Z') ==> r[i] == s[i]
    ensures IsLower(r)
  {
    seq(|s|, i requires 0 <= i < |s| => LowerChar(s[i]))
  }

  /** No ASCII upper-case letter occurs in `s`. */
  predicate IsLower(s: string) {
    forall i :: 0 <= i < |s| ==> !('A' <= s[i] <= 'Z')
  }

  lemma ToLowerOfLower(s: string)
    requires IsLower(s)
    ensures ToLower(s) == s
  {
  }

  lemma ToLowerAppend(a: string, b: string)
    ensures ToLower(a + b) == ToLower(a) + ToLower(b)
  {
  }

  /** A lower-case letter is missing from `ToLower(s)` when neither it nor
      its upper-case form occurs in `s`. */
  lemma AbsentFromLower(s: string, c: char)
    requires 'a' <= c <= 'z' && c !in s && (c as int - 'a' as int + 'A' as int) as char !in s
    ensures c !in ToLower(s)
  {
    forall i | 0 <= i < |s|
      ensures ToLower(s)[i] != c
    {
      assert s[i] in s;
    }
  }

  /** The lower-cased prefix of `s` is the prefix of its lower-casing. */
  lemma LowerPrefix(s: string, n: nat)
    requires n <= |s|
    ensures ToLower(s)[..n] == ToLower(s[..n])
  {
  }

  /** Reference meaning of `hay.includes(needle)`: `needle` is a contiguous
      slice of `hay`. */
  ghost predicate Occurs(needle: string, hay: string) {
    exists i :: SliceAt(needle, hay, i)
  }

  /** `needle` is the slice of `hay` that starts at index `i`. */
  ghost predicate SliceAt(needle: string, hay: string, i: int) {
    0 <= i <= |hay| - |needle| && hay[i..i + |needle|] == needle
  }

  /** When `needle` is not a prefix of `hay`, it occurs in `hay` exactly when
      it occurs in `hay` without its first character. */
  lemma OccursTail(needle: string, hay: string)
    requires |needle| <= |hay| && hay[..|needle|] != needle
    ensures Occurs(needle, hay) <==> Occurs(needle, hay[1..])
  {
    if Occurs(needle, hay) {
      var i :| SliceAt(needle, hay, i);
      assert hay[1..][i - 1..i - 1 + |needle|] == needle;
      assert SliceAt(needle, hay[1..], i - 1);
    }
    if Occurs(needle, hay[1..]) {
      var i :| SliceAt(needle, hay[1..], i);
      assert hay[i + 1..i + 1 + |needle|] == needle;
      assert SliceAt(needle, hay, i + 1);
    }
  }

  /** `hay.includes(needle)`: a left-to-right scan for `needle`. */
  function Includes(hay: string, needle: string): (b: bool)
    ensures b <==> Occurs(needle, hay)
    decreases |hay|
  {
    if |hay| < |needle| then false
    else if hay[..|needle|] == needle then
      assert hay[0..|needle|] == needle;
      assert SliceAt(needle, hay, 0);
      true
    else
      OccursTail(needle, hay);
      Includes(hay[1..], needle)
  }

  /** A character of `needle` that is missing from `hay` rules out every
      occurrence. */
  lemma AbsentCharBlocks(needle: string, hay: string, k: nat)
    requires k < |needle| && needle[k] !in hay
    ensures !Occurs(needle, hay)
  {
    forall i | 0 <= i <= |hay| - |needle|
      ensures !SliceAt(needle, hay, i)
    {
      assert hay[i + k] in hay;
    }
  }

  /** `parts.join(sep)` for a one-character separator: the result starts
      with the first part, followed by the separator when more parts follow. */
  function Join(parts: seq<string>, sep: char): (r: string)
    ensures |parts| == 0 ==> r == ""
    ensures |parts| >= 1 ==> parts[0] <= r
    ensures |parts| >= 2 ==> |parts[0]| < |r| && r[|parts[0]|] == sep
  {
    if |parts| == 0 then ""
    else if |parts| == 1 then parts[0]
    else parts[0] + [sep] + Join(parts[1..], sep)
  }

  /** `s.split(sep)`: the pieces between separators, used to read back what
      `Join` produced. */
  function Split(s: string, sep: char): (r: seq<string>)
    ensures |r| >= 1
  {
    if |s| == 0 then [""]
    else
      var rest := Split(s[1..], sep);
      if s[0] == sep then [""] + rest else [[s[0]] + rest[0]] + rest[1..]
  }

  lemma {:induction false} SplitWithoutSep(a: string, sep: char)
    requires sep !in a
    ensures Split(a, sep) == [a]
  {
    if |a| > 0 {
      SplitWithoutSep(a[1..], sep);
      assert [a[0]] + a[1..] == a;
    }
  }

  lemma {:induction false} SplitAtSep(a: string, b: string, sep: char)
    requires sep !in a
    ensures Split(a + [sep] + b, sep) == [a] + Split(b, sep)
  {
    var s := a + [sep] + b;
    if |a| == 0 {
      assert s[1..] == b;
    } else {
      assert s[1..] == a[1..] + [sep] + b;
      SplitAtSep(a[1..], b, sep);
      assert [a[0]] + a[1..] == a;
    }
  }

  /** Splitting a join on the same separator gives the parts back, provided
      no part contains the separator. */
  lemma {:induction false} SplitJoin(parts: seq<string>, sep: char)
    requires |parts| >= 1
    requires forall i :: 0 <= i < |parts| ==> sep !in parts[i]
    ensures Split(Join(parts, sep), sep) == parts
  {
    if |parts| == 1 {
      SplitWithoutSep(parts[0], sep);
    } else {
      SplitJoin(parts[1..], sep);
      SplitAtSep(parts[0], Join(parts[1..], sep), sep);
      assert [parts[0]] + parts[1..] == parts;
    }
  }
}

/**
  The JavaScript string operations the core relies on, with the facts about
  them that the rest of the model uses: `String.prototype.split` on a
  one-character separator, `Array.prototype.join`, `trim`, `startsWith`,
  `includes`, and the rendering of numbers as decimal or hexadecimal text.
 */
module Strings {

  // ---------------------------------------------------------------------
  // split and join

  /** `s.split(sep)`: the maximal separator-free runs of `s`, in order. */
  function Split(s: string, sep: char): (parts: seq<string>)
    ensures |parts| >= 1
    decreases |s|
  {
    if s == [] then [""]
    else if s[0] == sep then [""] + Split(s[1..], sep)
    else
      var rest := Split(s[1..], sep);
      [[s[0]] + rest[0]] + rest[1..]
  }

  /** `parts.join(sep)`. */
  function Join(parts: seq<string>, sep: string): string
  {
    if |parts| == 0 then ""
    else if |parts| == 1 then parts[0]
    else parts[0] + sep + Join(parts[1..], sep)
  }

  /** The text before the first `sep` (all of `s` when there is none). */
  function TakeUntil(s: string, sep: char): string
  {
    if s == [] || s[0] == sep then [] else [s[0]] + TakeUntil(s[1..], sep)
  }

  /** The text after the first `sep` (empty when there is none). */
  function DropThrough(s: string, sep: char): string
  {
    if s == [] then []
    else if s[0] == sep then s[1..]
    else DropThrough(s[1..], sep)
  }

  /** Cutting at the first separator splits `s` into the part before it, the
      separator, and the part after it. */
  lemma {:induction false} TakeDrop(s: string, sep: char)
    ensures sep !in TakeUntil(s, sep)
    ensures sep in s ==> s == TakeUntil(s, sep) + [sep] + DropThrough(s, sep)
    ensures sep !in s ==> TakeUntil(s, sep) == s
  {
    if s != [] && s[0] != sep {
      TakeDrop(s[1..], sep);
      assert s == [s[0]] + s[1..];
    }
  }

  /** The first separator of `p + [sep] + q` is the one after `p` when `p`
      holds none. */
  lemma {:induction false} CutAtFirst(p: string, sep: char, q: string)
    requires sep !in p
    ensures TakeUntil(p + [sep] + q, sep) == p
    ensures DropThrough(p + [sep] + q, sep) == q
  {
    var s := p + [sep] + q;
    if p == [] {
      assert s[1..] == q;
    } else {
      assert s[1..] == p[1..] + [sep] + q;
      CutAtFirst(p[1..], sep, q);
    }
  }

  /** `split` peels off the text before the first separator and continues
      with the text after it. */
  lemma {:induction false} SplitFirst(s: string, sep: char)
    ensures Split(s, sep)[0] == TakeUntil(s, sep)
    ensures |Split(s, sep)| > 1 <==> sep in s
    ensures sep in s ==> Split(s, sep)[1..] == Split(DropThrough(s, sep), sep)
    decreases |s|
  {
    if s != [] && s[0] != sep {
      SplitFirst(s[1..], sep);
      assert sep in s <==> sep in s[1..];
    }
  }

  /** No part of a split holds the separator. */
  lemma {:induction false} SplitPartsFree(s: string, sep: char)
    ensures forall i :: 0 <= i < |Split(s, sep)| ==> sep !in Split(s, sep)[i]
    decreases |s|
  {
    if s != [] {
      SplitPartsFree(s[1..], sep);
    }
  }

  /** Joining the parts of a split with the same separator gives back the
      original string. */
  lemma {:induction false} JoinSplit(s: string, sep: char)
    ensures Join(Split(s, sep), [sep]) == s
    decreases |s|
  {
    if s != [] {
      var rest := Split(s[1..], sep);
      JoinSplit(s[1..], sep);
      if s[0] == sep {
        assert Split(s, sep) == [""] + rest;
        assert ([""] + rest)[1..] == rest;
      } else if |rest| == 1 {
        assert s == [s[0]] + s[1..];
      } else {
        assert Split(s, sep)[1..] == rest[1..];
        assert s == [s[0]] + s[1..];
      }
    }
  }

  /** A string without the separator splits into itself alone. */
  lemma SplitFree(s: string, sep: char)
    requires sep !in s
    ensures Split(s, sep) == [s]
  {
    SplitFirst(s, sep);
    TakeDrop(s, sep);
  }

  /** Splitting a join of separator-free parts gives back the parts. */
  lemma {:induction false} SplitJoin(xs: seq<string>, sep: char)
    requires xs != []
    requires forall i :: 0 <= i < |xs| ==> sep !in xs[i]
    ensures Split(Join(xs, [sep]), sep) == xs
  {
    if |xs| == 1 {
      SplitFree(xs[0], sep);
    } else {
      var rest := Join(xs[1..], [sep]);
      var s := xs[0] + [sep] + rest;
      assert Join(xs, [sep]) == s;
      CutAtFirst(xs[0], sep, rest);
      SplitFirst(s, sep);
      assert sep in s by { assert s[|xs[0]|] == sep; }
      SplitJoin(xs[1..], sep);
      assert Split(s, sep) == [Split(s, sep)[0]] + Split(s, sep)[1..];
    }
  }

  /** Joining two non-empty lists is joining their joins. */
  lemma {:induction false} JoinAppend(xs: seq<string>, ys: seq<string>, sep: string)
    requires xs != [] && ys != []
    ensures Join(xs + ys, sep) == Join(xs, sep) + sep + Join(ys, sep)
  {
    if |xs| == 1 {
      assert (xs + ys)[1..] == ys;
    } else {
      assert (xs + ys)[1..] == xs[1..] + ys;
      JoinAppend(xs[1..], ys, sep);
    }
  }

  // ---------------------------------------------------------------------
  // prefixes and substrings

  /** `s.startsWith(p)`. */
  predicate HasPrefix(s: string, p: string) {
    |p| <= |s| && s[..|p|] == p
  }

  /** `s.includes(sub)`. */
  predicate Contains(s: string, sub: string)
    decreases |s|
  {
    HasPrefix(s, sub) || (s != [] && Contains(s[1..], sub))
  }

  /** `sub` occurs in `s` starting at position `i`. */
  predicate OccursAt(s: string, sub: string, i: nat) {
    i + |sub| <= |s| && s[i..i + |sub|] == sub
  }

  /** `includes` holds exactly when `sub` occurs at some position. */
  lemma {:induction false} ContainsAt(s: string, sub: string)
    ensures Contains(s, sub) <==> exists i: nat :: OccursAt(s, sub, i)
    decreases |s|
  {
    if HasPrefix(s, sub) {
      assert OccursAt(s, sub, 0);
    } else if s == [] {
      assert forall i: nat :: !OccursAt(s, sub, i);
    } else {
      ContainsAt(s[1..], sub);
      forall i: nat | OccursAt(s[1..], sub, i)
        ensures OccursAt(s, sub, i + 1)
      {
        assert s[i + 1..i + 1 + |sub|] == s[1..][i..i + |sub|];
      }
      forall i: nat | OccursAt(s, sub, i)
        ensures i > 0 && OccursAt(s[1..], sub, i - 1)
      {
        assert s[1..][i - 1..i - 1 + |sub|] == s[i..i + |sub|];
      }
    }
  }

  /** A text that has `sub` somewhere in it contains it. */
  lemma Infix(p: string, sub: string, q: string)
    ensures Contains(p + sub + q, sub)
  {
    var s := p + sub + q;
    assert s[|p|..|p| + |sub|] == sub;
    assert OccursAt(s, sub, |p|);
    ContainsAt(s, sub);
  }

  /** A text without the first character of `sub` does not contain `sub`. */
  lemma {:induction false} MissingFirstCharacter(s: string, sub: string)
    requires sub != [] && sub[0] !in s
    ensures !Contains(s, sub)
    decreases |s|
  {
    if s != [] {
      assert s[0] != sub[0];
      MissingFirstCharacter(s[1..], sub);
    }
  }

  /** Text found in `q` is still found once something is put before it. */
  lemma {:induction false} ContainsInSuffix(p: string, q: string, sub: string)
    requires Contains(q, sub)
    ensures Contains(p + q, sub)
    decreases |p|
  {
    if p == [] {
      assert p + q == q;
    } else {
      assert (p + q)[1..] == p[1..] + q;
      ContainsInSuffix(p[1..], q, sub);
    }
  }

  /** A joined text contains every one of its parts. */
  lemma {:induction false} JoinContainsParts(parts: seq<string>, sep: string)
    ensures forall i :: 0 <= i < |parts| ==> Contains(Join(parts, sep), parts[i])
    decreases |parts|
  {
    if |parts| == 1 {
      Infix([], parts[0], []);
      assert [] + parts[0] + [] == parts[0];
    } else if |parts| > 1 {
      var rest := Join(parts[1..], sep);
      JoinContainsParts(parts[1..], sep);
      forall i | 0 <= i < |parts|
        ensures Contains(Join(parts, sep), parts[i])
      {
        if i == 0 {
          Infix([], parts[0], sep + rest);
          assert [] + parts[0] + (sep + rest) == Join(parts, sep);
        } else {
          assert parts[i] == parts[1..][i - 1];
          ContainsInSuffix(parts[0] + sep, rest, parts[i]);
          assert parts[0] + sep + rest == Join(parts, sep);
        }
      }
    }
  }

  // ---------------------------------------------------------------------
  // trim

  /** The characters ECMAScript's `trim` removes: WhiteSpace (tab, vertical
      tab, form feed, space, no-break space, byte order mark and every space
      separator) and LineTerminator (line feed, carriage return, line and
      paragraph separators). */
  predicate IsSpace(c: char) {
    c == '\t' || c == '\n' || c == '\U{000B}' || c == '\U{000C}' || c == '\r' || c == ' '
    || c == '\U{00A0}' || c == '\U{1680}' || ('\U{2000}' <= c <= '\U{200A}')
    || c == '\U{2028}' || c == '\U{2029}' || c == '\U{202F}' || c == '\U{205F}'
    || c == '\U{3000}' || c == '\U{FEFF}'
  }

  /** `s` with its leading white space removed: a suffix of `s`. */
  function TrimStart(s: string): (r: string)
    ensures |r| <= |s| && r == s[|s| - |r|..]
    ensures r == [] || !IsSpace(r[0])
    ensures forall i :: 0 <= i < |s| - |r| ==> IsSpace(s[i])
    decreases |s|
  {
    if s != [] && IsSpace(s[0]) then
      var r := TrimStart(s[1..]);
      assert forall i :: 1 <= i < |s| ==> s[i] == s[1..][i - 1];
      assert s[1..][|s| - 1 - |r|..] == s[|s| - |r|..];
      r
    else s
  }

  /** `s` with its trailing white space removed: a prefix of `s`. */
  function TrimEnd(s: string): (r: string)
    ensures |r| <= |s| && r == s[..|r|]
    ensures r == [] || !IsSpace(r[|r| - 1])
    ensures forall i :: |r| <= i < |s| ==> IsSpace(s[i])
    decreases |s|
  {
    if s != [] && IsSpace(s[|s| - 1]) then
      var r := TrimEnd(s[..|s| - 1]);
      assert forall i :: 0 <= i < |s| - 1 ==> s[i] == s[..|s| - 1][i];
      assert s[..|s| - 1][..|r|] == s[..|r|];
      r
    else s
  }

  /** `s.trim()`. */
  function Trim(s: string): string {
    TrimEnd(TrimStart(s))
  }

  /** `trim` keeps the run of `s` that starts after its leading white space. */
  lemma TrimShape(s: string)
    ensures var k := |s| - |TrimStart(s)|;
      k + |Trim(s)| <= |s| && Trim(s) == s[k..k + |Trim(s)|]
  {
    var a := TrimStart(s);
    var t := TrimEnd(a);
    PrefixOfSuffix(s, |s| - |a|, |t|);
  }

  /** A prefix of a suffix is an inner slice. */
  lemma PrefixOfSuffix(s: string, k: nat, n: nat)
    requires k + n <= |s|
    ensures s[k..][..n] == s[k..k + n]
  {
  }

  /** What `trim` keeps neither starts nor ends with white space. */
  lemma TrimEnds(s: string)
    ensures Trim(s) == [] || (!IsSpace(Trim(s)[0]) && !IsSpace(Trim(s)[|Trim(s)| - 1]))
  {
    var a := TrimStart(s);
    var t := TrimEnd(a);
    if t != [] {
      assert t[0] == a[..|t|][0] == a[0];
    }
  }

  /** `trim` introduces no character that `s` lacks. */
  lemma TrimKeepsOut(s: string, c: char)
    requires c !in s
    ensures c !in Trim(s)
  {
    TrimShape(s);
  }

  // ---------------------------------------------------------------------
  // numbers as text

  predicate IsDigit(c: char) {
    '0' <= c <= '9'
  }

  /** A character of the class `[0-9a-fA-F]`. */
  predicate IsHexDigit(c: char) {
    IsDigit(c) || ('a' <= c <= 'f') || ('A' <= c <= 'F')
  }

  predicate AllHex(s: string) {
    forall i :: 0 <= i < |s| ==> IsHexDigit(s[i])
  }

  function HexDigit(d: nat): (c: char)
    requires d < 16
    ensures IsHexDigit(c)
  {
    "0123456789abcdef"[d]
  }

  /** The low `width` hexadecimal digits of `n`, most significant first, in
      lower case (as a MongoDB ObjectId prints itself). */
  function Hex(n: nat, width: nat): (s: string)
    ensures |s| == width && AllHex(s)
  {
    if width == 0 then "" else Hex(n / 16, width - 1) + [HexDigit(n % 16)]
  }

  /** The number a run of decimal digits denotes. */
  function DigitsValue(s: string): int
    requires forall i :: 0 <= i < |s| ==> IsDigit(s[i])
  {
    if s == [] then 0 else DigitsValue(s[..|s| - 1]) * 10 + (s[|s| - 1] as int - '0' as int)
  }

  /** `String(n)` for a natural number: its decimal digits, which denote `n`
      and have no leading zero. */
  function Decimal(n: nat): (s: string)
    ensures s != [] && forall i :: 0 <= i < |s| ==> IsDigit(s[i])
    ensures DigitsValue(s) == n
    ensures s[0] == '0' ==> s == "0"
  {
    if n < 10 then
      var s := ["0123456789"[n]];
      assert s[..0] == [];
      s
    else
      var prefix := Decimal(n / 10);
      var s := prefix + ["0123456789"[n % 10]];
      assert s[..|s| - 1] == prefix;
      s
  }
}

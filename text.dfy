/** The string operations the command-line tools rely on, written out
    explicitly: substring search (`includes`, `indexOf`), `split("\n")` and
    `join("\n")`, `trim()`, JavaScript's whitespace and line-terminator
    classes, and the decimal rendering of numbers (`toString()`). */
module Text {
  import opened Wrappers

  // ---------------------------------------------------------------------
  // Substring search

  /** `p` occurs in `s` starting at index `i`. */
  predicate OccursAt(s: string, p: string, i: int) {
    0 <= i && i + |p| <= |s| && s[i..i + |p|] == p
  }

  /** JavaScript's `s.indexOf(p, from)`: the first occurrence at or after `from`. */
  function IndexOfFrom(s: string, p: string, from: nat): (r: Option<nat>)
    ensures r.Some? ==> from <= r.value && OccursAt(s, p, r.value)
    ensures r.Some? ==> forall j :: from <= j < r.value ==> !OccursAt(s, p, j)
    ensures r.None? ==> forall j :: from <= j ==> !OccursAt(s, p, j)
    decreases |s| - from
  {
    if from + |p| > |s| then None
    else if s[from..from + |p|] == p then Some(from)
    else IndexOfFrom(s, p, from + 1)
  }

  /** The first occurrence is the one with none before it. */
  lemma FirstOccurrence(s: string, p: string, x: nat)
    requires OccursAt(s, p, x)
    requires forall j | 0 <= j < x :: !OccursAt(s, p, j)
    ensures IndexOfFrom(s, p, 0).Some? && IndexOfFrom(s, p, 0).value == x
  {
  }

  /** The same, for a search that starts at `from`. */
  lemma FirstOccurrenceFrom(s: string, p: string, from: nat, x: nat)
    requires from <= x && OccursAt(s, p, x)
    requires forall j | from <= j < x :: !OccursAt(s, p, j)
    ensures IndexOfFrom(s, p, from).Some? && IndexOfFrom(s, p, from).value == x
  {
  }

  /** JavaScript's `s.lastIndexOf(c)` for a single character. */
  function LastIndexOfChar(s: string, c: char): (r: Option<nat>)
    ensures r.Some? ==> r.value < |s| && s[r.value] == c
    ensures r.Some? ==> forall j | r.value < j < |s| :: s[j] != c
    ensures r.None? ==> c !in s
  {
    if |s| == 0 then None
    else if s[|s| - 1] == c then Some(|s| - 1)
    else LastIndexOfChar(s[..|s| - 1], c)
  }

  /** The last `c` is the one no other `c` follows. */
  lemma {:induction false} LastIndexOfCharAt(a: string, c: char, b: string)
    requires c !in b
    ensures LastIndexOfChar(a + [c] + b, c).Some? && LastIndexOfChar(a + [c] + b, c).value == |a|
    decreases |b|
  {
    var s := a + [c] + b;
    if |b| > 0 {
      assert s[|s| - 1] == b[|b| - 1];
      assert s[..|s| - 1] == a + [c] + b[..|b| - 1];
      LastIndexOfCharAt(a, c, b[..|b| - 1]);
    }
  }

  /** JavaScript's `s.includes(p)`: a search from the start succeeds. */
  predicate Contains(s: string, p: string) {
    IndexOfFrom(s, p, 0).Some?
  }

  /** `includes` holds exactly when `p` occurs somewhere in `s`. */
  lemma ContainsIffOccurs(s: string, p: string)
    ensures Contains(s, p) <==> exists i | 0 <= i <= |s| :: OccursAt(s, p, i)
  {
    var r := IndexOfFrom(s, p, 0);
    if r.Some? {
      assert OccursAt(s, p, r.value);
    }
  }

  /** A string contains each of its own slices. */
  lemma ContainsSlice(s: string, i: nat, j: nat)
    requires i <= j <= |s|
    ensures Contains(s, s[i..j])
  {
    assert OccursAt(s, s[i..j], i);
  }

  /** An occurrence inside a prefix is an occurrence in the whole string. */
  lemma ContainsPrefix(s: string, t: string, p: string)
    requires Contains(s, p)
    ensures Contains(s + t, p)
  {
    var i := IndexOfFrom(s, p, 0).value;
    assert (s + t)[i..i + |p|] == s[i..i + |p|];
    assert OccursAt(s + t, p, i);
  }

  // ---------------------------------------------------------------------
  // Character classes

  /** The characters the `.` of a JavaScript regular expression does not
      match: LF, CR, LINE SEPARATOR and PARAGRAPH SEPARATOR. */
  predicate IsLineTerminator(c: char) {
    c == '\n' || c == '\r' || c == '\U{2028}' || c == '\U{2029}'
  }

  /** JavaScript's WhiteSpace and LineTerminator characters: what `trim()`
      removes and what `\s` matches. */
  predicate IsJsWhitespace(c: char) {
    || c == '\t' || c == '\U{000B}' || c == '\U{000C}' || c == ' '
    || c == '\U{00A0}' || c == '\U{FEFF}' || c == '\U{1680}'
    || ('\U{2000}' <= c <= '\U{200A}')
    || c == '\U{202F}' || c == '\U{205F}' || c == '\U{3000}'
    || IsLineTerminator(c)
  }

  /** Every character of `s` is whitespace (the empty string included). */
  predicate IsBlank(s: string) {
    forall i | 0 <= i < |s| :: IsJsWhitespace(s[i])
  }

  /** `s` holds no line terminator. */
  predicate IsSingleLine(s: string) {
    forall i | 0 <= i < |s| :: !IsLineTerminator(s[i])
  }

  // ---------------------------------------------------------------------
  // trim()

  function TrimStart(s: string): (r: string)
    ensures |r| <= |s| && r == s[|s| - |r|..]
    ensures IsBlank(s[..|s| - |r|])
    ensures r != [] ==> !IsJsWhitespace(r[0])
  {
    if |s| > 0 && IsJsWhitespace(s[0]) then TrimStart(s[1..]) else s
  }

  function TrimEnd(s: string): (r: string)
    ensures |r| <= |s| && r == s[..|r|]
    ensures IsBlank(s[|r|..])
    ensures r != [] ==> !IsJsWhitespace(r[|r| - 1])
  {
    if |s| > 0 && IsJsWhitespace(s[|s| - 1]) then TrimEnd(s[..|s| - 1]) else s
  }

  /** JavaScript's `s.trim()`. */
  function Trim(s: string): string {
    TrimEnd(TrimStart(s))
  }

  /** `line.trim()` is falsy exactly when the line is blank. */
  lemma TrimEmptyIffBlank(s: string)
    ensures Trim(s) == "" <==> IsBlank(s)
  {
    var a := TrimStart(s);
    var b := TrimEnd(a);
    if b == "" {
      assert IsBlank(a[|b|..]);
      assert a[|b|..] == a;
      if a != [] {
        assert false;
      }
      assert s[..|s| - |a|] == s;
    } else {
      assert !IsJsWhitespace(b[0]);
      assert b[0] == a[0] == s[|s| - |a|];
    }
  }

  // ---------------------------------------------------------------------
  // replace(/\s/g, "") and toLowerCase()

  /** `s.replace(/\s/g, "")`: `s` without its whitespace. */
  function RemoveWhitespace(s: string): (r: string)
    ensures |r| <= |s|
    ensures forall i | 0 <= i < |r| :: !IsJsWhitespace(r[i])
  {
    if |s| == 0 then ""
    else (if IsJsWhitespace(s[0]) then "" else [s[0]]) + RemoveWhitespace(s[1..])
  }

  /** Removing the whitespace leaves nothing exactly when `s` is blank, and
      changes nothing when `s` holds none. */
  lemma {:induction false} RemoveWhitespaceSpec(s: string)
    ensures RemoveWhitespace(s) == "" <==> IsBlank(s)
    ensures (forall i | 0 <= i < |s| :: !IsJsWhitespace(s[i])) ==> RemoveWhitespace(s) == s
  {
    if |s| > 0 {
      RemoveWhitespaceSpec(s[1..]);
      assert forall i | 0 <= i < |s[1..]| :: s[1..][i] == s[i + 1];
      if !IsBlank(s[1..]) {
        var i :| 0 <= i < |s[1..]| && !IsJsWhitespace(s[1..][i]);
        assert !IsJsWhitespace(s[i + 1]);
      }
      assert s == [s[0]] + s[1..];
    }
  }

  /** The lower-case form of an ASCII letter; other characters unchanged. */
  function LowerChar(c: char): char {
    if 'A' <= c <= 'Z' then (c as int + 32) as char else c
  }

  /** `s.toLowerCase()` on ASCII letters. */
  function ToLower(s: string): string {
    seq(|s|, i requires 0 <= i < |s| => LowerChar(s[i]))
  }

  // ---------------------------------------------------------------------
  // split("\n") and join("\n")

  /** The number of occurrences of `c` in `s`. */
  function CountChar(s: string, c: char): nat {
    if |s| == 0 then 0 else (if s[0] == c then 1 else 0) + CountChar(s[1..], c)
  }

  lemma {:induction false} CountCharAppend(a: string, b: string, c: char)
    ensures CountChar(a + b, c) == CountChar(a, c) + CountChar(b, c)
  {
    if |a| > 0 {
      CountCharAppend(a[1..], b, c);
      assert (a + b)[0] == a[0];
      assert (a + b)[1..] == a[1..] + b;
    } else {
      assert a + b == b;
    }
  }

  lemma {:induction false} CountCharAbsent(s: string, c: char)
    requires c !in s
    ensures CountChar(s, c) == 0
  {
    if |s| > 0 {
      CountCharAbsent(s[1..], c);
    }
  }

  /** JavaScript's `s.split("\n")`. */
  function Split(s: string): (r: seq<string>)
    ensures |r| >= 1
  {
    if |s| == 0 then [""]
    else
      var rest := Split(s[1..]);
      if s[0] == '\n' then [""] + rest else [[s[0]] + rest[0]] + rest[1..]
  }

  /** JavaScript's `lines.join("\n")`. */
  function Join(ls: seq<string>): string {
    if |ls| == 0 then ""
    else if |ls| == 1 then ls[0]
    else ls[0] + "\n" + Join(ls[1..])
  }

  /** `split` yields one more piece than there are newlines, none of them
      holding a newline. */
  lemma {:induction false} SplitShape(s: string)
    ensures |Split(s)| == CountChar(s, '\n') + 1
    ensures forall k | 0 <= k < |Split(s)| :: '\n' !in Split(s)[k]
  {
    if |s| > 0 {
      SplitShape(s[1..]);
      var rest := Split(s[1..]);
      if s[0] != '\n' {
        assert '\n' !in rest[0];
        var r := Split(s);
        forall k | 0 <= k < |r| ensures '\n' !in r[k] {
          if k > 0 { assert r[k] == rest[k]; }
        }
      }
    }
  }

  /** Joining what `split` produced gives back the original text. */
  lemma {:induction false} JoinSplit(s: string)
    ensures Join(Split(s)) == s
  {
    if |s| > 0 {
      JoinSplit(s[1..]);
      var rest := Split(s[1..]);
      if s[0] == '\n' {
        assert Split(s) == [""] + rest;
        assert s == "\n" + s[1..];
      } else {
        var r := Split(s);
        assert r[0] == [s[0]] + rest[0] && r[1..] == rest[1..];
        if |rest| == 1 {
          assert Join(r) == [s[0]] + rest[0];
        } else {
          assert Join(rest) == rest[0] + "\n" + Join(rest[1..]);
          assert Join(r) == r[0] + "\n" + Join(r[1..]);
        }
        assert s == [s[0]] + s[1..];
      }
    }
  }

  lemma {:induction false} SplitSingle(a: string)
    requires '\n' !in a
    ensures Split(a) == [a]
  {
    if |a| > 0 {
      assert '\n' !in a[1..];
      SplitSingle(a[1..]);
      assert [a[0]] + a[1..] == a;
    }
  }

  lemma {:induction false} SplitCons(a: string, t: string)
    requires '\n' !in a
    ensures Split(a + "\n" + t) == [a] + Split(t)
  {
    if |a| == 0 {
      assert a + "\n" + t == "\n" + t;
      assert ("\n" + t)[1..] == t;
    } else {
      assert '\n' !in a[1..];
      SplitCons(a[1..], t);
      assert (a + "\n" + t)[1..] == a[1..] + "\n" + t;
      assert [a[0]] + a[1..] == a;
    }
  }

  /** `split` undoes `join` on lines that hold no newline. */
  lemma {:induction false} SplitJoin(ls: seq<string>)
    requires |ls| >= 1
    requires forall k | 0 <= k < |ls| :: '\n' !in ls[k]
    ensures Split(Join(ls)) == ls
  {
    if |ls| == 1 {
      SplitSingle(ls[0]);
    } else {
      SplitJoin(ls[1..]);
      SplitCons(ls[0], Join(ls[1..]));
      assert [ls[0]] + ls[1..] == ls;
    }
  }

  // ---------------------------------------------------------------------
  // Decimal numbers: `n.toString()`

  predicate IsDigit(c: char) {
    '0' <= c <= '9'
  }

  predicate AllDigits(s: string) {
    forall i | 0 <= i < |s| :: IsDigit(s[i])
  }

  function Digit(d: nat): char
    requires d < 10
  {
    "0123456789"[d]
  }

  /** The decimal rendering of a natural number, as `toString()` gives it. */
  function NatToString(n: nat): string
    decreases n
  {
    if n < 10 then [Digit(n)] else NatToString(n / 10) + [Digit(n % 10)]
  }

  /** The decimal rendering of an integer: a minus sign, then the digits. */
  function IntToString(i: int): string {
    if i < 0 then "-" + NatToString(-i) else NatToString(i)
  }

  /** The value of a string of decimal digits. */
  function ParseNat(s: string): nat
    requires AllDigits(s)
  {
    if |s| == 0 then 0
    else ParseNat(s[..|s| - 1]) * 10 + (s[|s| - 1] as int - '0' as int)
  }

  /** Reading the decimal rendering back gives the number: the rendering is
      a non-empty string of digits that loses nothing. */
  lemma {:induction false} ParseNatToString(n: nat)
    ensures |NatToString(n)| >= 1 && AllDigits(NatToString(n))
    ensures ParseNat(NatToString(n)) == n
    decreases n
  {
    if n >= 10 {
      ParseNatToString(n / 10);
      var s := NatToString(n);
      var d := n % 10;
      assert s == NatToString(n / 10) + [Digit(d)];
      assert s[..|s| - 1] == NatToString(n / 10);
      assert Digit(d) as int - '0' as int == d;
      assert ParseNat(s) == ParseNat(NatToString(n / 10)) * 10 + d;
    } else {
      assert Digit(n) as int - '0' as int == n;
    }
  }

  /** Different numbers have different decimal renderings. */
  lemma NatToStringInjective(m: nat, n: nat)
    requires NatToString(m) == NatToString(n)
    ensures m == n
  {
    ParseNatToString(m);
    ParseNatToString(n);
  }

  /** A decimal rendering holds no character of the given non-digit. */
  lemma NatToStringHasNo(n: nat, c: char)
    requires !IsDigit(c)
    ensures c !in NatToString(n)
  {
    ParseNatToString(n);
  }
}

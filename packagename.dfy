/** The three names `init` derives from the `name` of the web project's
    `package.json`: the Expo project name, the display name and the
    application id. Each is a chain of `replace` calls; the regular
    expressions are written out as functions on strings. */
module PackageName {
  import opened Wrappers
  import opened Text

  // ---------------------------------------------------------------------
  // replace(/^@.*\//, "")

  /** The first index from `i` on that holds a line terminator, or the
      length of `s`: where a `.*` starting at `i` has to stop. */
  function LineEnd(s: string, i: nat): (r: nat)
    requires i <= |s|
    ensures i <= r <= |s|
    ensures forall k | i <= k < r :: !IsLineTerminator(s[k])
    ensures r < |s| ==> IsLineTerminator(s[r])
    decreases |s| - i
  {
    if i == |s| || IsLineTerminator(s[i]) then i else LineEnd(s, i + 1)
  }

  /** The length of the match of `/^@.*\//`, or 0 when it does not match:
      a leading `@` and everything up to the last `/` of the first line,
      as the greedy `.*` backs off to the last `/` it passed. */
  function ScopeLength(s: string): (r: nat)
    ensures r <= |s|
    ensures r > 0 ==> 2 <= r && s[0] == '@' && s[r - 1] == '/'
  {
    if |s| == 0 || s[0] != '@' then 0
    else
      var k := LastIndexOfChar(s[1..LineEnd(s, 1)], '/');
      if k.None? then 0 else k.value + 2
  }

  /** `s.replace(/^@.*\//, "")`. */
  function RemoveScope(s: string): string {
    s[ScopeLength(s)..]
  }

  /** The match is exactly the leading `@` up to the last `/` before the
      first line terminator: it holds no line terminator, no `/` follows
      it on that line, and there is no match when the first line has no
      `/` after the `@`. */
  lemma {:induction false} ScopeLengthSpec(s: string)
    ensures var r := ScopeLength(s);
      && (r > 0 ==>
            && (forall k | 0 <= k < r :: !IsLineTerminator(s[k]))
            && (forall k | r <= k < LineEnd(s, 1) :: s[k] != '/'))
      && (r == 0 && |s| > 0 && s[0] == '@' ==> forall k | 1 <= k < LineEnd(s, 1) :: s[k] != '/')
  {
    if |s| > 0 && s[0] == '@' {
      var e := LineEnd(s, 1);
      var t := s[1..e];
      var k := LastIndexOfChar(t, '/');
      assert forall j | 1 <= j < e :: s[j] == t[j - 1];
      if k.Some? {
        assert forall j | k.value + 2 <= j < e :: s[j] == t[j - 1] && k.value < j - 1;
      } else {
        assert forall j | 1 <= j < e :: s[j] == t[j - 1] && t[j - 1] in t;
      }
    }
  }

  // ---------------------------------------------------------------------
  // convertPackageNameToProjectName

  /** `s.replace(/a/g, b)` for a single character `a`. */
  function ReplaceChar(s: string, a: char, b: char): string {
    seq(|s|, i requires 0 <= i < |s| => if s[i] == a then b else s[i])
  }

  /** `convertPackageNameToProjectName`: the scope removed and each `-`
      replaced by `_`. */
  function ProjectName(packageName: string): string {
    ReplaceChar(RemoveScope(packageName), '-', '_')
  }

  /** The project name holds no `-`. It is the name after its scope with
      each `-` turned into `_` and every other character kept, so an
      unscoped name keeps its length. */
  lemma ProjectNameSpec(packageName: string)
    ensures var r := ProjectName(packageName);
      var k := ScopeLength(packageName);
      && '-' !in r
      && |r| == |packageName| - k
      && (forall i | 0 <= i < |r| :: r[i] == if packageName[k + i] == '-' then '_' else packageName[k + i])
      && (k == 0 ==> |r| == |packageName|)
  {
    var r := ProjectName(packageName);
    assert forall i | 0 <= i < |r| :: r[i] != '-';
  }

  /** A scoped name written on one line loses everything up to and
      including its last `/`: its project name holds no `/`. */
  lemma ScopedProjectNameHasNoSlash(packageName: string)
    requires ScopeLength(packageName) > 0 && IsSingleLine(packageName)
    ensures '/' !in ProjectName(packageName)
  {
    ScopeLengthSpec(packageName);
    var k := ScopeLength(packageName);
    assert LineEnd(packageName, 1) == |packageName|;
    var r := ProjectName(packageName);
    assert forall i | 0 <= i < |r| :: r[i] != '/' by {
      forall i | 0 <= i < |r|
        ensures r[i] != '/'
      {
        assert packageName[k + i] != '/';
      }
    }
  }

  // ---------------------------------------------------------------------
  // convertPackageNameToDisplayName

  /** What `\w` matches. */
  predicate IsWordChar(c: char) {
    ('a' <= c <= 'z') || ('A' <= c <= 'Z') || ('0' <= c <= '9') || c == '_'
  }

  predicate IsLowerLetter(c: char) {
    'a' <= c <= 'z'
  }

  /** `c.toUpperCase()` for a character `\w` matched. */
  function UpperChar(c: char): (r: char)
    ensures IsWordChar(r) <==> IsWordChar(c)
    ensures !IsLowerLetter(r) && (r == c || IsLowerLetter(c))
  {
    if IsLowerLetter(c) then (c as int - 32) as char else c
  }

  /** `\b\w` matches at `i`: a word character with none before it. */
  predicate AtWordStart(s: string, i: nat)
    requires i < |s|
  {
    IsWordChar(s[i]) && (i == 0 || !IsWordChar(s[i - 1]))
  }

  /** `s.replace(/\b\w/g, (char) => char.toUpperCase())`: the matches are
      all taken in the original string. */
  function CapitalizeWords(s: string): (r: string)
    ensures |r| == |s|
  {
    seq(|s|, i requires 0 <= i < |s| => if AtWordStart(s, i) then UpperChar(s[i]) else s[i])
  }

  /** `convertPackageNameToDisplayName`: words capitalised first, then the
      scope removed, then each `-` replaced by a space. */
  function DisplayName(packageName: string): string {
    ReplaceChar(RemoveScope(CapitalizeWords(packageName)), '-', ' ')
  }

  /** Capitalising changes only lower-case letters, so the scope it sees
      is the same. */
  lemma {:induction false} CapitalizeKeepsScope(s: string)
    ensures ScopeLength(CapitalizeWords(s)) == ScopeLength(s)
  {
    var c := CapitalizeWords(s);
    assert forall i | 0 <= i < |s| :: IsLineTerminator(c[i]) <==> IsLineTerminator(s[i]);
    assert forall i | 0 <= i < |s| :: c[i] == '/' <==> s[i] == '/';
    if |s| > 0 && s[0] == '@' {
      assert c[0] == '@';
      LineEndAgree(c, s, 1);
      var e := LineEnd(s, 1);
      var t, u := c[1..e], s[1..e];
      assert forall j | 0 <= j < |t| :: t[j] == '/' <==> u[j] == '/';
      LastIndexOfCharAgree(t, u, '/');
    }
  }

  /** Two strings with the same line terminators have the same line ends. */
  lemma {:induction false} LineEndAgree(a: string, b: string, i: nat)
    requires |a| == |b| && i <= |a|
    requires forall k | 0 <= k < |a| :: IsLineTerminator(a[k]) <==> IsLineTerminator(b[k])
    ensures LineEnd(a, i) == LineEnd(b, i)
    decreases |a| - i
  {
    if i < |a| && !IsLineTerminator(a[i]) {
      LineEndAgree(a, b, i + 1);
    }
  }

  /** Two strings with `c` at the same places find the same last `c`. */
  lemma {:induction false} LastIndexOfCharAgree(a: string, b: string, c: char)
    requires |a| == |b|
    requires forall k | 0 <= k < |a| :: a[k] == c <==> b[k] == c
    ensures LastIndexOfChar(a, c) == LastIndexOfChar(b, c)
  {
    if |a| > 0 && a[|a| - 1] != c {
      LastIndexOfCharAgree(a[..|a| - 1], b[..|b| - 1], c);
    }
  }

  /** The display name holds no `-`: each becomes a space, and every
      other character after the scope is the capitalised name's. No
      lower-case letter stands at its start or right after a character
      that is not a word character. */
  lemma {:induction false} DisplayNameSpec(packageName: string)
    ensures var r := DisplayName(packageName);
      var c := CapitalizeWords(packageName);
      var k := ScopeLength(packageName);
      && '-' !in r
      && |r| == |packageName| - k
      && (forall i | 0 <= i < |r| :: r[i] == if c[k + i] == '-' then ' ' else c[k + i])
      && (|r| > 0 ==> !IsLowerLetter(r[0]))
      && (forall i | 0 < i < |r| && !IsWordChar(r[i - 1]) :: !IsLowerLetter(r[i]))
  {
    var s := packageName;
    var c := CapitalizeWords(s);
    CapitalizeKeepsScope(s);
    var k := ScopeLength(s);
    var r := DisplayName(s);
    assert forall i | 0 <= i < |r| :: r[i] != '-';
    assert k > 0 ==> c[k - 1] == '/' && s[k - 1] == '/';
    forall i | 0 <= i < |r| && (i == 0 || !IsWordChar(r[i - 1]))
      ensures !IsLowerLetter(r[i])
    {
      if IsWordChar(s[k + i]) {
        if i > 0 {
          assert !IsWordChar(c[k + i - 1]);
        }
        assert AtWordStart(s, k + i);
      }
    }
  }

  // ---------------------------------------------------------------------
  // convertPackageNameToAppId

  /** What `[a-z0-9]` matches. */
  predicate IsLowerAlnum(c: char) {
    IsLowerLetter(c) || IsDigit(c)
  }

  /** `s.replace(/[^a-z0-9]/g, "")`. */
  function KeepLowerAlnum(s: string): (r: string)
    ensures |r| <= |s|
    ensures forall i | 0 <= i < |r| :: IsLowerAlnum(r[i])
  {
    if |s| == 0 then ""
    else (if IsLowerAlnum(s[0]) then [s[0]] else "") + KeepLowerAlnum(s[1..])
  }

  /** `s.replace(/^[0-9]/, "x$&")`. */
  function PrefixDigit(s: string): string {
    if |s| > 0 && IsDigit(s[0]) then "x" + s else s
  }

  /** The part of the application id between `com.` and `.app`. */
  function AppIdMiddle(packageName: string): string {
    PrefixDigit(KeepLowerAlnum(RemoveScope(ToLower(packageName))))
  }

  /** `convertPackageNameToAppId`. */
  function AppId(packageName: string): string {
    "com." + AppIdMiddle(packageName) + ".app"
  }

  /** The filter keeps exactly the characters of `[a-z0-9]`, in order; a
      string of them alone is kept whole. */
  lemma {:induction false} KeepLowerAlnumSpec(s: string)
    ensures forall x :: x in KeepLowerAlnum(s) <==> x in s && IsLowerAlnum(x)
    ensures (forall i | 0 <= i < |s| :: IsLowerAlnum(s[i])) ==> KeepLowerAlnum(s) == s
  {
    if |s| > 0 {
      KeepLowerAlnumSpec(s[1..]);
      assert s == [s[0]] + s[1..];
      assert forall i | 0 <= i < |s[1..]| :: s[1..][i] == s[i + 1];
    }
  }

  /** The application id is `com.` + a middle + `.app`; the middle holds
      only `[a-z0-9]` and never starts with a digit: a leading digit gets
      an `x` in front. */
  lemma AppIdSpec(packageName: string)
    ensures var m := AppIdMiddle(packageName);
      var kept := KeepLowerAlnum(RemoveScope(ToLower(packageName)));
      && AppId(packageName) == "com." + m + ".app"
      && (forall i | 0 <= i < |m| :: IsLowerAlnum(m[i]))
      && (|m| > 0 ==> !IsDigit(m[0]))
      && (m == if |kept| > 0 && IsDigit(kept[0]) then "x" + kept else kept)
  {
    var kept := KeepLowerAlnum(RemoveScope(ToLower(packageName)));
    var m := AppIdMiddle(packageName);
    if |kept| > 0 && IsDigit(kept[0]) {
      assert forall i | 1 <= i < |m| :: m[i] == kept[i - 1];
    }
  }

  /** The application id does not depend on the case of ASCII letters. */
  lemma AppIdIgnoresCase(packageName: string)
    ensures AppId(ToLower(packageName)) == AppId(packageName)
  {
    assert ToLower(ToLower(packageName)) == ToLower(packageName);
  }

  /** An unscoped name of lower-case letters and digits that starts with
      a letter is the middle of its own application id. */
  lemma AppIdOfPlainName(packageName: string)
    requires |packageName| > 0 && IsLowerLetter(packageName[0])
    requires forall i | 0 <= i < |packageName| :: IsLowerAlnum(packageName[i])
    ensures AppId(packageName) == "com." + packageName + ".app"
  {
    assert ToLower(packageName) == packageName;
    KeepLowerAlnumSpec(packageName);
  }
}

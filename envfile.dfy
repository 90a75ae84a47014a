/** `updateEnvFile`: entries are folded into the text of a `.env` file, each
    replacing the rest of the line after the first `KEY=` or, when the key
    appears nowhere, appended as a new `KEY=VALUE` line. The regular
    expression `KEY=.*` is modelled by an explicit search; keys are taken to
    hold no regular-expression metacharacter and values no `$`. */
module EnvFile {
  import opened Wrappers
  import opened Text

  /** One `[key, value]` of `Object.entries`. */
  datatype Entry = Entry(key: string, value: string)

  /** `${key}=${value}`. */
  function Assignment(key: string, value: string): string {
    key + "=" + value
  }

  /** Where the match of `.*` starting at `from` ends: at the first line
      terminator at or after `from`, or at the end of the text. */
  function LineEnd(s: string, from: nat): (j: nat)
    requires from <= |s|
    ensures from <= j <= |s|
    ensures j < |s| ==> IsLineTerminator(s[j])
    ensures forall k | from <= k < j :: !IsLineTerminator(s[k])
    decreases |s| - from
  {
    if from == |s| || IsLineTerminator(s[from]) then from else LineEnd(s, from + 1)
  }

  /** The end of a line is determined by the two facts `LineEnd` promises. */
  lemma {:induction false} LineEndIs(s: string, from: nat, e: nat)
    requires from <= e <= |s|
    requires forall k | from <= k < e :: !IsLineTerminator(s[k])
    requires e < |s| ==> IsLineTerminator(s[e])
    ensures LineEnd(s, from) == e
  {
  }

  /** Where a step acts: the key occurs nowhere; it occurs but never as
      `KEY=`; or the first `KEY=` starts at `i`. */
  datatype Location = Absent | Unassigned | FirstAt(i: nat)

  /** `acc.includes(key)`, then the first match of `KEY=`. */
  function Locate(acc: string, key: string): (l: Location)
    ensures l.FirstAt? ==> l.i + |key| + 1 <= |acc|
  {
    if !Contains(acc, key) then Absent
    else match IndexOfFrom(acc, key + "=", 0)
      case None => Unassigned
      case Some(i) => FirstAt(i)
  }

  /** `Locate` finds the first `KEY=`, and reports the key as unassigned
      only when it occurs but `KEY=` does not. */
  lemma LocateSpec(acc: string, key: string)
    ensures Locate(acc, key).Absent? <==> !Contains(acc, key)
    ensures Locate(acc, key).Unassigned? <==> Contains(acc, key) && !Contains(acc, key + "=")
    ensures Locate(acc, key).FirstAt? ==> OccursAt(acc, key + "=", Locate(acc, key).i)
    ensures Locate(acc, key).FirstAt? ==> forall x | 0 <= x < Locate(acc, key).i :: !OccursAt(acc, key + "=", x)
  {
  }

  /** What the step writes at that location. */
  function Apply(acc: string, key: string, value: string, l: Location): string
    requires l.FirstAt? ==> l.i + |key| + 1 <= |acc|
  {
    match l
    case Absent => acc + Assignment(key, value) + "\n"
    case Unassigned => acc
    case FirstAt(i) => acc[..i] + Assignment(key, value) + acc[LineEnd(acc, i + |key| + 1)..]
  }

  /** One step of the `reduce`. */
  function UpsertEntry(acc: string, key: string, value: string): string {
    Apply(acc, key, value, Locate(acc, key))
  }

  /** `updateEnvFile` on the file's text: entries left to right, each seeing
      the text the previous one produced. */
  function UpdateEnvFile(envFile: string, entries: seq<Entry>): string
    decreases |entries|
  {
    if |entries| == 0 then envFile
    else UpdateEnvFile(UpsertEntry(envFile, entries[0].key, entries[0].value), entries[1..])
  }

  /** The fold applies the last entry to what the others produced. */
  lemma {:induction false} UpdateEnvFileSnoc(envFile: string, entries: seq<Entry>, e: Entry)
    ensures UpdateEnvFile(envFile, entries + [e]) == UpsertEntry(UpdateEnvFile(envFile, entries), e.key, e.value)
    decreases |entries|
  {
    if |entries| == 0 {
      assert ([] + [e])[1..] == [];
    } else {
      assert (entries + [e])[0] == entries[0];
      assert (entries + [e])[1..] == entries[1..] + [e];
      UpdateEnvFileSnoc(UpsertEntry(envFile, entries[0].key, entries[0].value), entries[1..], e);
    }
  }

  /** A key that occurs nowhere is appended on a line of its own after the
      unchanged text. */
  lemma {:induction false} UpsertAppends(t: string, key: string, value: string)
    requires !Contains(t, key)
    ensures UpsertEntry(t, key, value) == t + Assignment(key, value) + "\n"
  {
  }

  /** A key that occurs but is never followed by `=` leaves the text as it
      is: that entry is dropped. */
  lemma {:induction false} UpsertDrops(t: string, key: string, value: string)
    requires Contains(t, key) && !Contains(t, key + "=")
    ensures UpsertEntry(t, key, value) == t
  {
  }

  /** Where `KEY=` occurs, so does `KEY`. */
  lemma AssignmentHoldsKey(t: string, key: string, i: nat)
    requires OccursAt(t, key + "=", i)
    ensures OccursAt(t, key, i)
  {
    assert t[i..i + |key|] == (key + "=")[..|key|] == key;
  }

  /** Otherwise the first `KEY=` and the rest of its line, up to the next
      line terminator or the end of the text, become `KEY=VALUE`, and
      nothing else changes. */
  lemma {:induction false} UpsertReplaces(t: string, key: string, value: string)
    requires Contains(t, key + "=")
    ensures Locate(t, key).FirstAt?
    ensures
      var i := Locate(t, key).i;
      var j := LineEnd(t, i + |key| + 1);
      && (forall x | 0 <= x < i :: !OccursAt(t, key + "=", x))
      && t[i..i + |key| + 1] == key + "="
      && (forall x | i + |key| + 1 <= x < j :: !IsLineTerminator(t[x]))
      && (j == |t| || IsLineTerminator(t[j]))
      && UpsertEntry(t, key, value) == t[..i] + Assignment(key, value) + t[j..]
  {
    var i := IndexOfFrom(t, key + "=", 0).value;
    AssignmentHoldsKey(t, key, i);
    ContainsIffOccurs(t, key);
    assert Locate(t, key) == FirstAt(i);
    var j := LineEnd(t, i + |key| + 1);
    assert UpsertEntry(t, key, value) == t[..i] + Assignment(key, value) + t[j..];
  }

  /** Replacing a stretch without newlines by text without newlines keeps
      the number of newlines. */
  lemma {:induction false} SpliceKeepsNewlines(t: string, i: nat, j: nat, a: string)
    requires i <= j <= |t| && '\n' !in t[i..j] && '\n' !in a
    ensures CountChar(t[..i] + a + t[j..], '\n') == CountChar(t, '\n')
  {
    CountCharAbsent(t[i..j], '\n');
    CountCharAbsent(a, '\n');
    assert t == t[..i] + t[i..j] + t[j..];
    CountCharAppend(t[..i] + t[i..j], t[j..], '\n');
    CountCharAppend(t[..i], t[i..j], '\n');
    CountCharAppend(t[..i] + a, t[j..], '\n');
    CountCharAppend(t[..i], a, '\n');
  }

  /** With no newline in the key or the value, a step adds a line exactly
      when it appends, and otherwise keeps the number of lines. */
  lemma {:induction false} UpsertLineCount(t: string, key: string, value: string)
    requires '\n' !in key && '\n' !in value
    ensures CountChar(UpsertEntry(t, key, value), '\n') == CountChar(t, '\n') + (if Contains(t, key) then 0 else 1)
  {
    LocateSpec(t, key);
    var l := Locate(t, key);
    if l.Absent? {
      AppendAddsLine(t, Assignment(key, value));
    } else if l.FirstAt? {
      ReplaceKeepsLines(t, key, value, l.i);
    }
  }

  /** An appended single line adds one newline. */
  lemma {:induction false} AppendAddsLine(t: string, a: string)
    requires '\n' !in a
    ensures CountChar(t + a + "\n", '\n') == CountChar(t, '\n') + 1
  {
    CountCharAbsent(a, '\n');
    CountCharAppend(t + a, "\n", '\n');
    CountCharAppend(t, a, '\n');
  }

  /** Replacing the rest of a `KEY=` line keeps the number of newlines. */
  lemma {:induction false} ReplaceKeepsLines(t: string, key: string, value: string, i: nat)
    requires '\n' !in key && '\n' !in value
    requires OccursAt(t, key + "=", i)
    ensures CountChar(t[..i] + Assignment(key, value) + t[LineEnd(t, i + |key| + 1)..], '\n') == CountChar(t, '\n')
  {
    var j := LineEnd(t, i + |key| + 1);
    assert '\n' !in t[i..j] by {
      forall x | i <= x < j ensures t[x] != '\n' {
        if x < i + |key| + 1 {
          assert t[x] == t[i..i + |key| + 1][x - i] == (key + "=")[x - i];
        }
      }
    }
    SpliceKeepsNewlines(t, i, j, Assignment(key, value));
  }

  /** Keys and values without a newline. */
  predicate SingleLineEntries(entries: seq<Entry>) {
    forall n | 0 <= n < |entries| :: '\n' !in entries[n].key && '\n' !in entries[n].value
  }

  /** The number of lines never decreases and grows by at most one per
      entry. */
  lemma {:induction false} UpdateLineCount(t: string, entries: seq<Entry>)
    requires SingleLineEntries(entries)
    ensures CountChar(t, '\n') <= CountChar(UpdateEnvFile(t, entries), '\n') <= CountChar(t, '\n') + |entries|
    decreases |entries|
  {
    if |entries| > 0 {
      UpsertLineCount(t, entries[0].key, entries[0].value);
      assert SingleLineEntries(entries[1..]) by {
        forall n | 0 <= n < |entries[1..]| ensures '\n' !in entries[1..][n].key && '\n' !in entries[1..][n].value {
          assert entries[1..][n] == entries[n + 1];
        }
      }
      UpdateLineCount(UpsertEntry(t, entries[0].key, entries[0].value), entries[1..]);
    }
  }

  /** After an appended line, the first `KEY=` is the appended one, since
      the key occurs nowhere before it and holds no `=`. */
  lemma {:induction false} LocateAfterAppend(t: string, key: string, value: string)
    requires '=' !in key && !Contains(t, key)
    ensures Locate(t + Assignment(key, value) + "\n", key) == FirstAt(|t|)
  {
    var r := t + Assignment(key, value) + "\n";
    var p := key + "=";
    assert forall y | 0 <= y < |t| :: r[y] == t[y];
    assert forall y | 0 <= y < |key| :: r[|t| + y] == key[y];
    assert r[|t| + |key|] == '=';
    assert r[|t|..|t| + |p|] == p;
    assert r[|t|..|t| + |key|] == key;
    assert OccursAt(r, key, |t|);
    ContainsIffOccurs(r, key);
    forall x | 0 <= x < |t| ensures !OccursAt(r, p, x) {
      if OccursAt(r, p, x) {
        assert forall y | 0 <= y < |p| :: r[x + y] == p[y];
        if x + |key| <= |t| {
          assert OccursAt(t, key, x) by {
            forall y | 0 <= y < |key| ensures t[x..x + |key|][y] == key[y] {
              assert t[x + y] == r[x + y] == p[y];
            }
          }
          ContainsIffOccurs(t, key);
        }
      }
    }
    FirstOccurrence(r, p, |t|);
  }

  /** An occurrence within a prefix two texts share is an occurrence in
      both. */
  lemma {:induction false} OccursInSharedPrefix(r: string, t: string, p: string, x: nat, n: nat)
    requires n <= |r| && n <= |t| && forall k | 0 <= k < n :: r[k] == t[k]
    requires x + |p| <= n && OccursAt(r, p, x)
    ensures OccursAt(t, p, x)
  {
    forall y | 0 <= y < |p| ensures t[x..x + |p|][y] == p[y] {
      assert t[x + y] == r[x + y] == r[x..x + |p|][y];
    }
  }

  /** After a replacement at `i`, the first `KEY=` is still at `i`: the text
      before it is unchanged and so is `KEY=` itself. */
  lemma {:induction false} LocateAfterReplace(t: string, key: string, value: string, i: nat, j: nat)
    requires Locate(t, key) == FirstAt(i) && i + |key| + 1 <= j <= |t|
    ensures Locate(t[..i] + Assignment(key, value) + t[j..], key) == FirstAt(i)
  {
    var p := key + "=";
    var r := t[..i] + Assignment(key, value) + t[j..];
    LocateSpec(t, key);
    ReplaceKeepsPrefix(t, key, value, i, j);
    assert r[i..i + |key|] == key;
    assert OccursAt(r, key, i);
    ContainsIffOccurs(r, key);
    forall x | 0 <= x < i ensures !OccursAt(r, p, x) {
      if OccursAt(r, p, x) {
        OccursInSharedPrefix(r, t, p, x, i + |p|);
      }
    }
    FirstOccurrence(r, p, i);
  }

  /** A replacement at a `KEY=` keeps the text up to and including that
      `KEY=`. */
  lemma {:induction false} ReplaceKeepsPrefix(t: string, key: string, value: string, i: nat, j: nat)
    requires OccursAt(t, key + "=", i) && i + |key| + 1 <= j <= |t|
    ensures var r := t[..i] + Assignment(key, value) + t[j..];
      && i + |key| + 1 <= |r|
      && (forall k | 0 <= k < i + |key| + 1 :: r[k] == t[k])
      && r[i..i + |key| + 1] == key + "="
  {
    var a := Assignment(key, value);
    var p := key + "=";
    var r := t[..i] + a + t[j..];
    forall k | 0 <= k < i + |p| ensures r[k] == t[k] {
      if k >= i {
        assert r[k] == a[k - i] == p[k - i] == t[i..i + |p|][k - i];
      }
    }
    assert r[i..i + |p|] == p;
  }

  /** Writing `KEY=VALUE` where it already stands, up to the end of its
      line, changes nothing. */
  lemma {:induction false} ApplyWhereWritten(r: string, key: string, value: string, i: nat)
    requires IsSingleLine(value)
    requires i + |Assignment(key, value)| <= |r| && r[i..i + |Assignment(key, value)|] == Assignment(key, value)
    requires i + |Assignment(key, value)| == |r| || IsLineTerminator(r[i + |Assignment(key, value)|])
    ensures Apply(r, key, value, FirstAt(i)) == r
  {
    var a := Assignment(key, value);
    forall x | i + |key| + 1 <= x < i + |a| ensures !IsLineTerminator(r[x]) {
      assert r[x] == r[i..i + |a|][x - i] == a[x - i] == value[x - i - |key| - 1];
    }
    LineEndIs(r, i + |key| + 1, i + |a|);
    assert r == r[..i] + r[i..i + |a|] + r[i + |a|..];
  }

  lemma {:induction false} IdempotentWhenAbsent(t: string, key: string, value: string)
    requires '=' !in key && IsSingleLine(value) && !Contains(t, key)
    ensures UpsertEntry(t + Assignment(key, value) + "\n", key, value) == t + Assignment(key, value) + "\n"
  {
    var a := Assignment(key, value);
    var r := t + a + "\n";
    LocateAfterAppend(t, key, value);
    assert r[|t|..|t| + |a|] == a;
    ApplyWhereWritten(r, key, value, |t|);
  }

  lemma {:induction false} IdempotentWhenAssigned(t: string, key: string, value: string, i: nat)
    requires IsSingleLine(value) && Locate(t, key) == FirstAt(i)
    ensures var r := t[..i] + Assignment(key, value) + t[LineEnd(t, i + |key| + 1)..];
      UpsertEntry(r, key, value) == r
  {
    var a := Assignment(key, value);
    var j := LineEnd(t, i + |key| + 1);
    var r := t[..i] + a + t[j..];
    LocateAfterReplace(t, key, value, i, j);
    assert r[i..i + |a|] == a;
    if i + |a| < |r| {
      assert r[i + |a|] == t[j];
    }
    ApplyWhereWritten(r, key, value, i);
  }

  /** Applying the same entry twice is applying it once, for a key without
      `=` and a value on one line. */
  lemma {:induction false} UpsertIdempotent(t: string, key: string, value: string)
    requires '=' !in key && IsSingleLine(value)
    ensures UpsertEntry(UpsertEntry(t, key, value), key, value) == UpsertEntry(t, key, value)
  {
    var l := Locate(t, key);
    if l.Absent? {
      TwiceAbsent(t, key, value);
    } else if l.FirstAt? {
      TwiceAssigned(t, key, value, l.i);
    }
  }

  /** The appending case of `UpsertIdempotent`. */
  lemma {:induction false} TwiceAbsent(t: string, key: string, value: string)
    requires '=' !in key && IsSingleLine(value) && Locate(t, key).Absent?
    ensures UpsertEntry(UpsertEntry(t, key, value), key, value) == UpsertEntry(t, key, value)
  {
    var u := UpsertEntry(t, key, value);
    assert u == t + Assignment(key, value) + "\n";
    IdempotentWhenAbsent(t, key, value);
  }

  /** The replacing case of `UpsertIdempotent`. */
  lemma {:induction false} TwiceAssigned(t: string, key: string, value: string, i: nat)
    requires IsSingleLine(value) && Locate(t, key) == FirstAt(i)
    ensures UpsertEntry(UpsertEntry(t, key, value), key, value) == UpsertEntry(t, key, value)
  {
    var u := UpsertEntry(t, key, value);
    assert u == t[..i] + Assignment(key, value) + t[LineEnd(t, i + |key| + 1)..];
    IdempotentWhenAssigned(t, key, value, i);
  }
}

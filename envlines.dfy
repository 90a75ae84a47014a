/** A line-based `updateEnvFile` that keeps each entry on a line of its
    own, and the inputs on which the text-based one loses entries. */
module EnvLines {
  import opened Wrappers
  import opened Text
  import opened EnvFile

  /** A line that assigns `key`: it starts with `KEY=`. */
  predicate Defines(line: string, key: string) {
    |key| < |line| && line[..|key|] == key && line[|key|] == '='
  }

  lemma DefinesAssignment(key: string, value: string)
    ensures Defines(Assignment(key, value), key)
  {
    var a := Assignment(key, value);
    assert a[..|key|] == key && a[|key|] == '=';
  }

  /** When a line assigns a shorter key, the longer one holds the `=`. */
  lemma LongerKeyHoldsEquals(line: string, k1: string, k2: string)
    requires Defines(line, k1) && Defines(line, k2) && |k1| < |k2|
    ensures '=' in k2
  {
    assert k2[|k1|] == line[..|k2|][|k1|] == line[|k1|];
  }

  /** No line assigns two different keys that hold no `=`. */
  lemma DefinesOneKey(line: string, k1: string, k2: string)
    requires Defines(line, k1) && Defines(line, k2) && '=' !in k1 && '=' !in k2
    ensures k1 == k2
  {
    if |k1| < |k2| {
      LongerKeyHoldsEquals(line, k1, k2);
      assert false;
    } else if |k2| < |k1| {
      LongerKeyHoldsEquals(line, k2, k1);
      assert false;
    }
  }

  /** The first line at or after `from` that assigns `key`. */
  function FirstDefining(lines: seq<string>, key: string, from: nat): (r: Option<nat>)
    ensures r.Some? ==> from <= r.value < |lines| && Defines(lines[r.value], key)
    ensures r.Some? ==> forall n | from <= n < r.value :: !Defines(lines[n], key)
    ensures r.None? ==> forall n | from <= n < |lines| :: !Defines(lines[n], key)
    decreases |lines| - from
  {
    if from >= |lines| then None
    else if Defines(lines[from], key) then Some(from)
    else FirstDefining(lines, key, from + 1)
  }

  /** The first assignment is the one with none before it. */
  lemma {:induction false} FirstDefiningIs(lines: seq<string>, key: string, from: nat, x: nat)
    requires from <= x < |lines| && Defines(lines[x], key)
    requires forall n | from <= n < x :: !Defines(lines[n], key)
    ensures FirstDefining(lines, key, from) == Some(x)
    decreases x - from
  {
    if from < x {
      FirstDefiningIs(lines, key, from + 1, x);
    }
  }

  /** Two line lists whose lines assign `key` at the same places have the
      same first assignment. */
  lemma SameFirstDefining(l1: seq<string>, l2: seq<string>, key: string)
    requires |l1| <= |l2|
    requires forall n | 0 <= n < |l2| :: Defines(l2[n], key) <==> n < |l1| && Defines(l1[n], key)
    ensures FirstDefining(l1, key, 0) == FirstDefining(l2, key, 0)
  {
    var m := FirstDefining(l1, key, 0);
    if m.Some? {
      FirstDefiningIs(l2, key, 0, m.value);
    }
  }

  /** Lines none of which holds a newline. */
  predicate SingleLines(lines: seq<string>) {
    forall n | 0 <= n < |lines| :: '\n' !in lines[n]
  }

  /** One entry on the lines of the file: the first line assigning the key
      becomes `KEY=VALUE`; without one, `KEY=VALUE` becomes a new line
      before the final empty piece a trailing newline leaves, or after the
      last line when the file does not end in a newline. */
  function UpsertLines(lines: seq<string>, key: string, value: string): (r: seq<string>)
    requires |lines| >= 1
    ensures |r| >= |lines| >= 1
    ensures FirstDefining(r, key, 0).Some? && r[FirstDefining(r, key, 0).value] == Assignment(key, value)
    ensures forall n | 0 <= n < |lines| && !Defines(lines[n], key) && lines[n] != "" :: r[n] == lines[n]
    ensures SingleLines(lines) && '\n' !in key && '\n' !in value ==> SingleLines(r)
  {
    var a := Assignment(key, value);
    DefinesAssignment(key, value);
    var m := FirstDefining(lines, key, 0);
    if m.Some? then
      var r := lines[m.value := a];
      assert forall n | 0 <= n < m.value :: r[n] == lines[n];
      FirstDefiningIs(r, key, 0, m.value);
      r
    else if lines[|lines| - 1] == "" then
      var r := lines[..|lines| - 1] + [a, ""];
      assert forall n | 0 <= n < |lines| - 1 :: r[n] == lines[n];
      FirstDefiningIs(r, key, 0, |lines| - 1);
      r
    else
      var r := lines + [a, ""];
      assert forall n | 0 <= n < |lines| :: r[n] == lines[n];
      FirstDefiningIs(r, key, 0, |lines|);
      r
  }

  function UpsertAll(lines: seq<string>, entries: seq<Entry>): (r: seq<string>)
    requires |lines| >= 1
    ensures |r| >= 1
    decreases |entries|
  {
    if |entries| == 0 then lines
    else UpsertAll(UpsertLines(lines, entries[0].key, entries[0].value), entries[1..])
  }

  /** The line-based `updateEnvFile`: split into lines, upsert each entry,
      join the lines again. */
  function UpdateEnvFileByLines(envFile: string, entries: seq<Entry>): string {
    Join(UpsertAll(Split(envFile), entries))
  }

  /** Entries as `Object.entries` yields them: distinct keys, none holding
      `=` or a newline, and values on one line. */
  predicate WellFormedEntries(entries: seq<Entry>) {
    && (forall n | 0 <= n < |entries| ::
          '=' !in entries[n].key && '\n' !in entries[n].key && '\n' !in entries[n].value)
    && (forall n1, n2 | 0 <= n1 < n2 < |entries| :: entries[n1].key != entries[n2].key)
  }

  /** Every entry's key is first assigned on a line that is exactly its
      `KEY=VALUE`. */
  predicate Settled(lines: seq<string>, entries: seq<Entry>) {
    forall n | 0 <= n < |entries| ::
      FirstDefining(lines, entries[n].key, 0).Some?
      && lines[FirstDefining(lines, entries[n].key, 0).value] == Assignment(entries[n].key, entries[n].value)
  }

  /** Lines where every entry is settled are left as they are. */
  lemma {:induction false} SettledIsFixpoint(lines: seq<string>, entries: seq<Entry>)
    requires |lines| >= 1 && Settled(lines, entries)
    ensures UpsertAll(lines, entries) == lines
    decreases |entries|
  {
    if |entries| > 0 {
      var i := FirstDefining(lines, entries[0].key, 0).value;
      assert lines[i := lines[i]] == lines;
      assert UpsertLines(lines, entries[0].key, entries[0].value) == lines;
      assert Settled(lines, entries[1..]) by {
        forall n | 0 <= n < |entries[1..]|
          ensures FirstDefining(lines, entries[1..][n].key, 0).Some?
            && lines[FirstDefining(lines, entries[1..][n].key, 0).value] == Assignment(entries[1..][n].key, entries[1..][n].value)
        {
          assert entries[1..][n] == entries[n + 1];
        }
      }
      SettledIsFixpoint(lines, entries[1..]);
    }
  }

  /** Upserting one key leaves the first assignment of every other key, and
      its line, where they were. */
  lemma UpsertKeepsOtherKey(lines: seq<string>, key: string, value: string, other: string)
    requires |lines| >= 1 && '=' !in key && '=' !in other && key != other
    ensures FirstDefining(UpsertLines(lines, key, value), other, 0) == FirstDefining(lines, other, 0)
    ensures FirstDefining(lines, other, 0).Some? ==>
      UpsertLines(lines, key, value)[FirstDefining(lines, other, 0).value] == lines[FirstDefining(lines, other, 0).value]
  {
    var r := UpsertLines(lines, key, value);
    var a := Assignment(key, value);
    DefinesAssignment(key, value);
    if Defines(a, other) { DefinesOneKey(a, key, other); }
    var m := FirstDefining(lines, key, 0);
    if m.Some? {
      if Defines(lines[m.value], other) { DefinesOneKey(lines[m.value], key, other); }
      assert forall n | 0 <= n < |r| :: Defines(r[n], other) <==> n < |lines| && Defines(lines[n], other);
    } else if lines[|lines| - 1] == "" {
      assert forall n | 0 <= n < |r| :: Defines(r[n], other) <==> n < |lines| && Defines(lines[n], other) by {
        forall n | 0 <= n < |r| ensures Defines(r[n], other) <==> n < |lines| && Defines(lines[n], other) {
          if n < |lines| - 1 {
            assert r[n] == lines[n];
          }
        }
      }
    } else {
      assert forall n | 0 <= n < |r| :: Defines(r[n], other) <==> n < |lines| && Defines(lines[n], other) by {
        forall n | 0 <= n < |r| ensures Defines(r[n], other) <==> n < |lines| && Defines(lines[n], other) {
          if n < |lines| {
            assert r[n] == lines[n];
          }
        }
      }
    }
    SameFirstDefining(lines, r, other);
  }

  /** Folding in fresh keys keeps what was settled and settles each new
      entry. */
  lemma {:induction false} SettleAll(lines: seq<string>, done: seq<Entry>, entries: seq<Entry>)
    requires |lines| >= 1 && Settled(lines, done) && WellFormedEntries(done + entries)
    ensures Settled(UpsertAll(lines, entries), done + entries)
    decreases |entries|
  {
    if |entries| == 0 {
      assert done + entries == done;
    } else {
      var e := entries[0];
      var l1 := UpsertLines(lines, e.key, e.value);
      var all := done + entries;
      assert all[|done|] == e;
      forall n | 0 <= n < |done| + 1
        ensures FirstDefining(l1, (done + [e])[n].key, 0).Some?
          && l1[FirstDefining(l1, (done + [e])[n].key, 0).value] == Assignment((done + [e])[n].key, (done + [e])[n].value)
      {
        if n < |done| {
          var d := done[n];
          assert (done + [e])[n] == d == all[n];
          UpsertKeepsOtherKey(lines, e.key, e.value, d.key);
        } else {
          assert (done + [e])[n] == e;
        }
      }
      assert (done + [e]) + entries[1..] == all;
      SettleAll(l1, done + [e], entries[1..]);
    }
  }

  lemma {:induction false} UpsertAllSingleLines(lines: seq<string>, entries: seq<Entry>)
    requires |lines| >= 1 && SingleLines(lines) && WellFormedEntries(entries)
    ensures SingleLines(UpsertAll(lines, entries))
    decreases |entries|
  {
    if |entries| > 0 {
      assert WellFormedEntries(entries[1..]) by {
        forall n | 0 <= n < |entries[1..]| ensures entries[1..][n] == entries[n + 1] { }
      }
      UpsertAllSingleLines(UpsertLines(lines, entries[0].key, entries[0].value), entries[1..]);
    }
  }

  /** The line-based update is idempotent for any entries `Object.entries`
      can yield, and every entry ends up as a line of its own. */
  lemma ByLinesIdempotent(t: string, entries: seq<Entry>)
    requires WellFormedEntries(entries)
    ensures UpdateEnvFileByLines(UpdateEnvFileByLines(t, entries), entries) == UpdateEnvFileByLines(t, entries)
    ensures forall n | 0 <= n < |entries| ::
      Assignment(entries[n].key, entries[n].value) in Split(UpdateEnvFileByLines(t, entries))
  {
    var l0 := Split(t);
    SplitShape(t);
    var l1 := UpsertAll(l0, entries);
    assert [] + entries == entries;
    SettleAll(l0, [], entries);
    UpsertAllSingleLines(l0, entries);
    SplitJoin(l1);
    SettledIsFixpoint(l1, entries);
    forall n | 0 <= n < |entries| ensures Assignment(entries[n].key, entries[n].value) in Split(UpdateEnvFileByLines(t, entries)) {
      assert l1[FirstDefining(l1, entries[n].key, 0).value] == Assignment(entries[n].key, entries[n].value);
    }
  }


  // ---------------------------------------------------------------------
  // Where the text-based update goes wrong

  /** Appending `B=1` to a file whose last line has no newline glues it to
      that line. */
  lemma GluedAppend()
    ensures UpsertEntry("A=x", "B", "1") == "A=xB=1\n"
  {
    assert "A=x"[2..3] == "x";
    assert IndexOfFrom("A=x", "B", 2) == None;
    assert IndexOfFrom("A=x", "B", 1) == None;
    assert IndexOfFrom("A=x", "B", 0) == None;
  }

  /** Rewriting `A` then takes the whole glued line, and `B=1` with it. */
  lemma GluedLineRewritten()
    ensures UpsertEntry("A=xB=1\n", "A", "2") == "A=2\n"
  {
    var s := "A=xB=1\n";
    assert s[0..1] == "A";
    assert s[0..2] == "A=";
    LineEndIs(s, 2, 6);
    assert s[6..] == "\n";
  }

  /** On a file that ends in a newline, appending then rewriting keeps both. */
  lemma NewlineAppend()
    ensures UpsertEntry("A=2\n", "B", "1") == "A=2\nB=1\n"
  {
    assert "A=2\n"[3..4] == "\n";
    assert IndexOfFrom("A=2\n", "B", 3) == None;
    assert IndexOfFrom("A=2\n", "B", 2) == None;
    assert IndexOfFrom("A=2\n", "B", 1) == None;
    assert IndexOfFrom("A=2\n", "B", 0) == None;
  }

  lemma NewlineRewrite()
    ensures UpsertEntry("A=2\nB=1\n", "A", "2") == "A=2\nB=1\n"
  {
    var s := "A=2\nB=1\n";
    assert s[0..1] == "A";
    assert s[0..2] == "A=";
    LineEndIs(s, 2, 3);
    assert s[..0] + "A=2" + s[3..] == s;
  }

  /** A file that does not end in a newline gets the appended entry glued to
      its last line, and a later entry for that line's key overwrites both:
      `B` is lost, and a second run adds it back, so the update is not
      idempotent. */
  lemma MissingNewlineLosesEntry()
    ensures UpdateEnvFile("A=x", [Entry("B", "1"), Entry("A", "2")]) == "A=2\n"
    ensures UpdateEnvFile("A=2\n", [Entry("B", "1"), Entry("A", "2")]) == "A=2\nB=1\n"
    ensures UpdateEnvFile("A=x", [Entry("B", "1"), Entry("A", "2")])
         != UpdateEnvFile(UpdateEnvFile("A=x", [Entry("B", "1"), Entry("A", "2")]), [Entry("B", "1"), Entry("A", "2")])
  {
    var es := [Entry("B", "1"), Entry("A", "2")];
    GluedAppend();
    GluedLineRewritten();
    NewlineAppend();
    NewlineRewrite();
    assert es[1..][1..] == [];
  }

  /** `includes` and the unanchored `KEY=.*` also match a longer key that
      ends in `KEY`: upserting `A` rewrites the value of `XA` and never adds
      an `A` line. */
  lemma SuffixKeyRewritten()
    ensures UpsertEntry("XA=1\n", "A", "2") == "XA=2\n"
  {
    var s := "XA=1\n";
    assert s[0] == 'X' && s[1] == 'A' && s[2] == '=';
    assert s[1..2] == "A" && s[1..3] == "A=";
    assert !OccursAt(s, "A", 0) && !OccursAt(s, "A=", 0);
    FirstOccurrence(s, "A", 1);
    FirstOccurrence(s, "A=", 1);
    assert Locate(s, "A") == FirstAt(1);
    LineEndIs(s, 3, 4);
    assert s[..1] + "A=2" + s[4..] == "XA=2\n";
  }

  lemma ByLinesSteps()
    ensures UpsertAll(["A=x"], [Entry("B", "1"), Entry("A", "2")]) == ["A=2", "B=1", ""]
  {
    var es := [Entry("B", "1"), Entry("A", "2")];
    assert !Defines("A=x", "B") by { assert "A=x"[..1] == "A"; }
    assert FirstDefining(["A=x"], "B", 0) == None;
    var l1 := ["A=x", "B=1", ""];
    assert Assignment("B", "1") == "B=1" && Assignment("A", "2") == "A=2";
    assert ["A=x"] + ["B=1", ""] == l1;
    assert UpsertLines(["A=x"], "B", "1") == l1;
    assert Defines("A=x", "A") by { assert "A=x"[..1] == "A"; }
    assert FirstDefining(l1, "A", 0) == Some(0);
    assert l1[0 := "A=2"] == ["A=2", "B=1", ""];
    assert UpsertLines(l1, "A", "2") == ["A=2", "B=1", ""];
    assert es[1..][1..] == [];
  }

  /** The line-based update keeps `B` on the file of `MissingNewlineLosesEntry`. */
  lemma ByLinesKeepsEntry()
    ensures UpdateEnvFileByLines("A=x", [Entry("B", "1"), Entry("A", "2")]) == "A=2\nB=1\n"
  {
    SplitSingle("A=x");
    ByLinesSteps();
    var ls := ["A=2", "B=1", ""];
    assert ls[1..][1..] == [""];
    assert Join(ls[1..]) == "B=1\n";
    assert Join(ls) == "A=2\n" + "B=1\n";
  }
}

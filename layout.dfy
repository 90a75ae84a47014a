/** Wrapping the children of a Next.js root layout in `<AppLayout>` and
    undoing it (`addAppLayout` and `removeAppLayout` in next2app). The
    file read and write become the input and the output; the regular
    expressions of the source are modelled by explicit leftmost search.

    The wrapping pattern `(<body[^>]*>)([\s\S]*?)(\{children\})([\s\S]*?)(<\/body>)`
    matches at the first position `p` where `<body` starts, a `>` follows
    it, a `{children}` follows that `>`, and a `</body>` follows that
    `{children}`; its lazy groups make the `>`, the `{children}` and the
    `</body>` the first ones after their predecessors. */
module Layout {
  import opened Wrappers
  import opened Text
  import opened LayoutImport

  const Children: string := "{children}"
  const Open: string := "<AppLayout>"
  const Close: string := "</AppLayout>"
  const BodyOpen: string := "<body"
  const BodyClose: string := "</body>"

  // ---------------------------------------------------------------------
  // addAppLayout

  /** Where the opening body tag that starts at `p` ends: the first `>`
      after `<body`. */
  function TagEnd(s: string, p: nat): (r: Option<nat>)
    ensures r.Some? ==> OccursAt(s, BodyOpen, p) && p + |BodyOpen| <= r.value < |s| && s[r.value] == '>'
  {
    if OccursAt(s, BodyOpen, p) then
      var g := IndexOfFrom(s, ">", p + |BodyOpen|);
      if g.Some? then assert s[g.value..g.value + 1] == ">"; Some(g.value) else None
    else None
  }

  /** The position of the `{children}` the wrapping pattern captures when
      it matches at `p`. */
  function ChildrenAt(s: string, p: nat): (r: Option<nat>)
    ensures r.Some? ==> OccursAt(s, Children, r.value)
  {
    var g := TagEnd(s, p);
    if g.None? then None
    else
      var q := IndexOfFrom(s, Children, g.value + 1);
      if q.None? then None
      else if IndexOfFrom(s, BodyClose, q.value + |Children|).Some? then q
      else None
  }

  /** The leftmost match of the wrapping pattern from `from` on: its start
      and the position of its `{children}`. */
  function FindChildren(s: string, from: nat): (r: Option<(nat, nat)>)
    ensures r.Some? ==> from <= r.value.0 && ChildrenAt(s, r.value.0).Some? && ChildrenAt(s, r.value.0).value == r.value.1
    decreases |s| - from
  {
    if from > |s| then None
    else if ChildrenAt(s, from).Some? then Some((from, ChildrenAt(s, from).value))
    else FindChildren(s, from + 1)
  }

  /** The search finds the leftmost match: nothing before it matches. */
  lemma {:induction false} FindChildrenFirst(s: string, from: nat)
    ensures var r := FindChildren(s, from);
      r.Some? ==> forall j | from <= j < r.value.0 :: ChildrenAt(s, j).None?
    decreases |s| - from
  {
    if from <= |s| && ChildrenAt(s, from).None? {
      FindChildrenFirst(s, from + 1);
      assert FindChildren(s, from) == FindChildren(s, from + 1);
    }
  }

  /** When the search finds no match, nothing matches at all. */
  lemma {:induction false} FindChildrenNone(s: string, from: nat)
    ensures var r := FindChildren(s, from);
      r.None? ==> forall j | from <= j <= |s| :: ChildrenAt(s, j).None?
    decreases |s| - from
  {
    if from <= |s| && ChildrenAt(s, from).None? {
      FindChildrenNone(s, from + 1);
      assert FindChildren(s, from) == FindChildren(s, from + 1);
    }
  }

  /** The `{children}` at `q` wrapped in the two tags. */
  function WrapAt(s: string, q: nat): string
    requires q + |Children| <= |s|
  {
    s[..q] + Open + Children + Close + s[q + |Children|..]
  }

  /** `layout.replace(pattern, "$1$2<AppLayout>{children}</AppLayout>$4$5")`. */
  function WrapChildren(s: string): string {
    var m := FindChildren(s, 0);
    if m.None? then s else WrapAt(s, m.value.1)
  }

  /** `addAppLayout()`: the layout to write, or `None` when it already
      holds `<AppLayout>` and nothing is written. */
  function AddAppLayout(layout: string): Option<string> {
    if Contains(layout, Open) then None
    else Some(ImportLine + WrapChildren(layout))
  }

  // ---------------------------------------------------------------------
  // removeAppLayout

  /** The `<AppLayout>` and `</AppLayout>` that
      `(<body[^>]*>)([\s\S]*?)<AppLayout>([\s\S]*?)<\/AppLayout>([\s\S]*?)(<\/body>)`
      captures when it matches at `p`. */
  function UnwrapAt(s: string, p: nat): (r: Option<(nat, nat)>)
    ensures r.Some? ==> OccursAt(s, Open, r.value.0) && r.value.0 + |Open| <= r.value.1 && OccursAt(s, Close, r.value.1)
  {
    var g := TagEnd(s, p);
    if g.None? then None
    else
      var a := IndexOfFrom(s, Open, g.value + 1);
      if a.None? then None
      else
        var b := IndexOfFrom(s, Close, a.value + |Open|);
        if b.None? then None
        else if IndexOfFrom(s, BodyClose, b.value + |Close|).Some? then Some((a.value, b.value))
        else None
  }

  /** The leftmost match of the unwrapping pattern from `from` on. */
  function FindUnwrap(s: string, from: nat): (r: Option<(nat, nat)>)
    ensures r.Some? ==> OccursAt(s, Open, r.value.0) && r.value.0 + |Open| <= r.value.1 && OccursAt(s, Close, r.value.1)
    decreases |s| - from
  {
    if from > |s| then None
    else if UnwrapAt(s, from).Some? then UnwrapAt(s, from)
    else FindUnwrap(s, from + 1)
  }

  /** `layout.replace(pattern, "$1$2$3$4$5")`: the two tags dropped, what
      they enclosed kept. */
  function Unwrap(s: string): string {
    var m := FindUnwrap(s, 0);
    if m.None? then s else DropTags(s, m.value.0, m.value.1)
  }

  /** The layout without the `<AppLayout>` at `a` and the `</AppLayout>`
      at `b`. */
  function DropTags(s: string, a: nat, b: nat): string
    requires a + |Open| <= b && b + |Close| <= |s|
  {
    s[..a] + s[a + |Open|..b] + s[b + |Close|..]
  }

  /** `removeAppLayout()`: the layout it writes. */
  function RemoveAppLayout(layout: string): string {
    Unwrap(RemoveImport(layout))
  }

  // ---------------------------------------------------------------------
  // Properties

  /** A layout that already uses `<AppLayout>` is left alone; any other
      gets the import line in front of it, and behind it the layout with
      the first `{children}` of a body wrapped, or unchanged when no body
      holds one. */
  lemma {:induction false} AddAppLayoutSpec(layout: string)
    ensures Contains(layout, Open) <==> AddAppLayout(layout).None?
    ensures var r := AddAppLayout(layout);
      && (r.Some? ==> |r.value| >= |ImportLine| && r.value[..|ImportLine|] == ImportLine)
      && (r.Some? && FindChildren(layout, 0).None? ==> r.value == ImportLine + layout)
  {
    var r := AddAppLayout(layout);
    if r.Some? {
      assert r.value == ImportLine + WrapChildren(layout);
      assert (ImportLine + WrapChildren(layout))[..|ImportLine|] == ImportLine;
    }
  }

  /** Where a body holds `{children}`, exactly the first such is wrapped:
      the match starts at the first `<body` that matches, and the layout
      written is the import line followed by the layout with the two tags
      around that `{children}`. */
  lemma {:induction false} AddWrapsFirstChildren(layout: string)
    requires !Contains(layout, Open) && FindChildren(layout, 0).Some?
    ensures var m := FindChildren(layout, 0).value;
      && (forall j | 0 <= j < m.0 :: ChildrenAt(layout, j).None?)
      && OccursAt(layout, Children, m.1)
      && AddAppLayout(layout).Some? && AddAppLayout(layout).value == ImportLine + WrapAt(layout, m.1)
  {
    FindChildrenFirst(layout, 0);
  }

  /** What the wrapping keeps: the layout before the `{children}`, the
      `{children}` itself between the two tags, and the layout after it. */
  lemma {:induction false} WrapAtSpec(s: string, q: nat)
    requires q + |Children| <= |s|
    ensures var w := WrapAt(s, q);
      var c := q + |Open| + |Children|;
      && |w| == |s| + |Open| + |Close|
      && w[..q] == s[..q]
      && OccursAt(w, Open, q) && w[q + |Open|..c] == Children
      && OccursAt(w, Close, c) && w[c + |Close|..] == s[q + |Children|..]
  {
  }

  /** An earlier `<body` than a match would have matched too, as its `>`,
      `{children}` and `</body>` come no later. */
  lemma {:induction false} EarlierBodyMatches(s: string, j: nat, p0: nat, q: nat)
    requires ChildrenAt(s, p0).Some? && ChildrenAt(s, p0).value == q
    requires j < p0 && OccursAt(s, BodyOpen, j)
    ensures ChildrenAt(s, j).Some?
  {
    var g0 := TagEnd(s, p0).value;
    assert OccursAt(s, ">", g0);
    var g := IndexOfFrom(s, ">", j + |BodyOpen|);
    assert g.Some? && g.value <= g0;
    var c := IndexOfFrom(s, Children, g.value + 1);
    assert c.Some? && c.value <= q;
    var e0 := IndexOfFrom(s, BodyClose, q + |Children|).value;
    assert OccursAt(s, BodyClose, e0);
  }

  /** The leftmost body match starts at the first `<body` of the layout. */
  lemma {:induction false} MatchIsFirstBody(s: string, p0: nat, q: nat)
    requires ChildrenAt(s, p0).Some? && ChildrenAt(s, p0).value == q
    requires forall j | 0 <= j < p0 :: ChildrenAt(s, j).None?
    ensures forall j | 0 <= j < p0 :: !OccursAt(s, BodyOpen, j)
  {
    forall j | 0 <= j < p0
      ensures !OccursAt(s, BodyOpen, j)
    {
      if OccursAt(s, BodyOpen, j) {
        EarlierBodyMatches(s, j, p0, q);
        assert false;
      }
    }
  }

  /** No `<AppLayout>` starts before the inserted one: one starting in the
      layout would lie in the layout, or overlap the inserted `<` at a
      place where `<AppLayout>` has no `<`. */
  lemma {:induction false} NoOpenBefore(x: string, q: nat, w: string, j: nat)
    requires !Contains(x, Open) && q + |Children| <= |x|
    requires w == x[..q] + Open + Children + Close + x[q + |Children|..]
    requires j < q
    ensures !OccursAt(w, Open, j)
  {
    if j + |Open| <= q {
      assert w[j..j + |Open|] == x[j..j + |Open|];
      ContainsIffOccurs(x, Open);
      assert !OccursAt(x, Open, j);
    } else if j + |Open| <= |w| {
      assert w[q] == '<';
      assert w[j..j + |Open|][q - j] == w[q];
      assert Open[q - j] != '<';
    }
  }

  /** The first `<AppLayout>` after the body tag is the inserted one. */
  lemma {:induction false} OpenIsInserted(x: string, q: nat, w: string, g: nat)
    requires !Contains(x, Open) && q + |Children| <= |x| && g < q
    requires w == x[..q] + Open + Children + Close + x[q + |Children|..]
    ensures IndexOfFrom(w, Open, g + 1).Some? && IndexOfFrom(w, Open, g + 1).value == q
  {
    assert w[q..q + |Open|] == Open;
    forall j | g + 1 <= j < q
      ensures !OccursAt(w, Open, j)
    {
      NoOpenBefore(x, q, w, j);
    }
    FirstOccurrenceFrom(w, Open, g + 1, q);
  }

  /** The first `</AppLayout>` after the inserted `<AppLayout>` is the
      inserted one. */
  lemma {:induction false} CloseIsInserted(x: string, q: nat, w: string)
    requires q + |Children| <= |x|
    requires w == x[..q] + Open + Children + Close + x[q + |Children|..]
    ensures var c := q + |Open| + |Children|;
      IndexOfFrom(w, Close, q + |Open|).Some? && IndexOfFrom(w, Close, q + |Open|).value == c
  {
    var c := q + |Open| + |Children|;
    assert w[c..c + |Close|] == Close;
    forall j | q + |Open| <= j < c
      ensures !OccursAt(w, Close, j)
    {
      assert w[j] == Children[j - q - |Open|];
    }
    FirstOccurrenceFrom(w, Close, q + |Open|, c);
  }

  /** The wrapped layout keeps the body tag that ends before the insertion. */
  lemma {:induction false} TagEndKept(x: string, q: nat, w: string, p0: nat)
    requires q + |Children| <= |x|
    requires w == x[..q] + Open + Children + Close + x[q + |Children|..]
    requires TagEnd(x, p0).Some? && TagEnd(x, p0).value < q
    ensures TagEnd(w, p0).Some? && TagEnd(w, p0).value == TagEnd(x, p0).value
  {
    var g0 := TagEnd(x, p0).value;
    assert w[..q] == x[..q];
    assert w[p0..p0 + |BodyOpen|] == x[p0..p0 + |BodyOpen|];
    forall j | p0 + |BodyOpen| <= j <= g0
      ensures OccursAt(w, ">", j) <==> OccursAt(x, ">", j)
    {
      assert w[j..j + 1] == x[j..j + 1];
    }
    FirstOccurrenceFrom(w, ">", p0 + |BodyOpen|, g0);
  }

  /** A `</body>` behind the wrapped `{children}` is still there after the
      inserted tags. */
  lemma {:induction false} BodyCloseKept(x: string, q: nat, w: string)
    requires q + |Children| <= |x|
    requires w == x[..q] + Open + Children + Close + x[q + |Children|..]
    requires IndexOfFrom(x, BodyClose, q + |Children|).Some?
    ensures IndexOfFrom(w, BodyClose, q + |Open| + |Children| + |Close|).Some?
  {
    var e := IndexOfFrom(x, BodyClose, q + |Children|).value;
    var d := |Open| + |Close|;
    assert w[q + |Open| + |Children| + |Close|..] == x[q + |Children|..];
    assert w[e + d..e + d + |BodyClose|] == x[e..e + |BodyClose|];
    assert OccursAt(w, BodyClose, e + d);
  }

  /** No match of the unwrapping pattern starts before the first `<body`. */
  lemma {:induction false} NoUnwrapBefore(x: string, q: nat, w: string, p0: nat)
    requires q + |Children| <= |x| && p0 + |BodyOpen| <= q
    requires w == x[..q] + Open + Children + Close + x[q + |Children|..]
    requires forall j | 0 <= j < p0 :: !OccursAt(x, BodyOpen, j)
    ensures forall j | 0 <= j < p0 :: UnwrapAt(w, j).None?
  {
    forall j | 0 <= j < p0
      ensures UnwrapAt(w, j).None?
    {
      assert w[j..j + |BodyOpen|] == x[j..j + |BodyOpen|];
      assert !OccursAt(x, BodyOpen, j);
      assert !OccursAt(w, BodyOpen, j);
      assert TagEnd(w, j).None?;
    }
  }

  /** The leftmost search finds the first match. */
  lemma {:induction false} FindUnwrapFrom(s: string, from: nat, p: nat)
    requires from <= p <= |s| && UnwrapAt(s, p).Some?
    requires forall j | from <= j < p :: UnwrapAt(s, j).None?
    ensures FindUnwrap(s, from) == UnwrapAt(s, p)
    decreases p - from
  {
    if from < p {
      FindUnwrapFrom(s, from + 1, p);
    }
  }

  /** The parts of a match of the wrapping pattern. */
  lemma {:induction false} ChildrenAtParts(s: string, p: nat, q: nat)
    requires ChildrenAt(s, p).Some? && ChildrenAt(s, p).value == q
    ensures TagEnd(s, p).Some? && p + |BodyOpen| <= TagEnd(s, p).value < q
    ensures q + |Children| <= |s| && IndexOfFrom(s, BodyClose, q + |Children|).Some?
  {
  }

  /** The unwrapping pattern matches at `p` with the tags its parts find. */
  lemma {:induction false} UnwrapAtParts(s: string, p: nat, g: nat, a: nat, b: nat)
    requires TagEnd(s, p).Some? && TagEnd(s, p).value == g
    requires IndexOfFrom(s, Open, g + 1).Some? && IndexOfFrom(s, Open, g + 1).value == a
    requires IndexOfFrom(s, Close, a + |Open|).Some? && IndexOfFrom(s, Close, a + |Open|).value == b
    requires IndexOfFrom(s, BodyClose, b + |Close|).Some?
    ensures UnwrapAt(s, p).Some? && UnwrapAt(s, p).value.0 == a && UnwrapAt(s, p).value.1 == b
  {
  }

  /** In the wrapped layout the unwrapping pattern matches first where the
      wrapping pattern matched, and captures the inserted tags. */
  lemma {:induction false} UnwrapFindsInserted(x: string, p0: nat, q: nat, w: string)
    requires !Contains(x, Open)
    requires ChildrenAt(x, p0).Some? && ChildrenAt(x, p0).value == q
    requires forall j | 0 <= j < p0 :: ChildrenAt(x, j).None?
    requires w == WrapAt(x, q)
    ensures FindUnwrap(w, 0).Some? && FindUnwrap(w, 0).value.0 == q
    ensures FindUnwrap(w, 0).value.1 == q + |Open| + |Children|
  {
    ChildrenAtParts(x, p0, q);
    assert w == x[..q] + Open + Children + Close + x[q + |Children|..];
    var g0 := TagEnd(x, p0).value;
    var c := q + |Open| + |Children|;
    MatchIsFirstBody(x, p0, q);
    NoUnwrapBefore(x, q, w, p0);
    TagEndKept(x, q, w, p0);
    OpenIsInserted(x, q, w, g0);
    CloseIsInserted(x, q, w);
    BodyCloseKept(x, q, w);
    UnwrapAtParts(w, p0, g0, q, c);
    FindUnwrapFrom(w, 0, p0);
  }

  /** Round trip: removing the layout added to a layout without
      `<AppLayout>`, that does not start with whitespace and whose body
      holds `{children}`, gives the layout back. */
  lemma {:induction false} RemoveUndoesAdd(x: string)
    requires !Contains(x, Open)
    requires |x| > 0 && !IsJsWhitespace(x[0])
    requires FindChildren(x, 0).Some?
    ensures AddAppLayout(x).Some? && RemoveAppLayout(AddAppLayout(x).value) == x
  {
    WrappedStartsAsBefore(x);
    RemoveImportAfterAdd(WrapChildren(x));
    UnwrapUndoesWrap(x);
  }

  /** The wrapped layout starts with the character the layout starts
      with, as the match lies behind its `<body`. */
  lemma {:induction false} WrappedStartsAsBefore(x: string)
    requires |x| > 0 && FindChildren(x, 0).Some?
    ensures |WrapChildren(x)| > 0 && WrapChildren(x)[0] == x[0]
  {
    var m := FindChildren(x, 0).value;
    ChildrenAtParts(x, m.0, m.1);
    WrapAtSpec(x, m.1);
    assert WrapAt(x, m.1)[..m.1][0] == x[..m.1][0];
  }

  /** Unwrapping the wrapped layout gives the layout back. */
  lemma {:induction false} UnwrapUndoesWrap(x: string)
    requires !Contains(x, Open) && FindChildren(x, 0).Some?
    ensures Unwrap(WrapChildren(x)) == x
  {
    var m := FindChildren(x, 0).value;
    FindChildrenFirst(x, 0);
    ChildrenAtParts(x, m.0, m.1);
    UnwrapFindsInserted(x, m.0, m.1, WrapAt(x, m.1));
    UnwrapRestores(x, m.1, WrapAt(x, m.1));
  }

  /** Dropping the inserted tags from the wrapped layout gives the layout
      back. */
  lemma {:induction false} DropInsertedTags(x: string, q: nat)
    requires q + |Children| <= |x|
    ensures var w := WrapAt(x, q);
      q + |Open| + |Children| + |Close| <= |w| &&
      DropTags(w, q, q + |Open| + |Children|) == x[..q] + Children + x[q + |Children|..]
  {
    WrapAtSpec(x, q);
  }

  /** `removeAppLayout` drops the tags of the match it finds. */
  lemma UnwrapIsDropTags(w: string, a: nat, b: nat)
    requires FindUnwrap(w, 0).Some? && FindUnwrap(w, 0).value.0 == a && FindUnwrap(w, 0).value.1 == b
    ensures a + |Open| <= b && b + |Close| <= |w|
    ensures Unwrap(w) == DropTags(w, a, b)
  {
  }

  /** So the unwrapping that finds the inserted tags restores the layout. */
  lemma {:induction false} UnwrapRestores(x: string, q: nat, w: string)
    requires OccursAt(x, Children, q) && w == WrapAt(x, q)
    requires FindUnwrap(w, 0).Some? && FindUnwrap(w, 0).value.0 == q
    requires FindUnwrap(w, 0).value.1 == q + |Open| + |Children|
    ensures Unwrap(w) == x
  {
    UnwrapIsDropTags(w, q, q + |Open| + |Children|);
    DropInsertedTags(x, q);
    SpliceOccurrence(x, Children, q);
  }

  /** Putting an occurrence back where it was gives the text back. */
  lemma SpliceOccurrence(x: string, p: string, q: nat)
    requires OccursAt(x, p, q)
    ensures x[..q] + p + x[q + |p|..] == x
  {
    assert x[..q] + x[q..q + |p|] + x[q + |p|..] == x;
  }

  // ---------------------------------------------------------------------
  // Running addAppLayout twice

  /** A string without `<` has no occurrence of a pattern that starts
      with `<`. */
  lemma {:induction false} NoTagNoOccurrence(s: string, p: string)
    requires '<' !in s && |p| > 0 && p[0] == '<'
    ensures forall i :: !OccursAt(s, p, i)
  {
    forall i
      ensures !OccursAt(s, p, i)
    {
      if 0 <= i && i + |p| <= |s| {
        assert s[i..i + |p|][0] == s[i];
      }
    }
  }

  /** So in a layout without `<` neither pattern matches and no
      `<AppLayout>` occurs. */
  lemma {:induction false} NoTagsNoMatch(s: string, from: nat)
    requires '<' !in s
    ensures FindChildren(s, from).None? && FindUnwrap(s, from).None?
    ensures !Contains(s, Open)
    decreases |s| - from
  {
    NoTagNoOccurrence(s, BodyOpen);
    NoTagNoOccurrence(s, Open);
    assert !OccursAt(s, BodyOpen, from);
    if from <= |s| {
      NoTagsNoMatch(s, from + 1);
    }
  }

  /** The import line holds no `<`. */
  lemma ImportLineHasNoTag()
    ensures '<' !in ImportLine
  {
  }

  /** A layout without `<` gets the import line and nothing else. */
  lemma {:induction false} AddWithoutTags(s: string)
    requires '<' !in s
    ensures AddAppLayout(s).Some? && AddAppLayout(s).value == ImportLine + s
  {
    NoTagsNoMatch(s, 0);
  }

  /** As written, the guard only looks for `<AppLayout>`, which is never
      added when no body holds `{children}`: each run adds another import
      line, and removing the layout takes out only one of them. */
  lemma {:induction false} AddStacksImports(x: string)
    requires '<' !in x
    ensures AddAppLayout(x).Some? && AddAppLayout(x).value == ImportLine + x
    ensures AddAppLayout(ImportLine + x).Some?
    ensures AddAppLayout(ImportLine + x).value == ImportLine + ImportLine + x
    ensures RemoveAppLayout(ImportLine + ImportLine + x) == ImportLine + x != x
  {
    ImportLineHasNoTag();
    var y := ImportLine + x;
    assert '<' !in y;
    AddWithoutTags(x);
    AddWithoutTags(y);
    assert ImportLine + ImportLine + x == ImportLine + y;
    assert y[0] == ImportLine[0] == 'i';
    RemoveImportAfterAdd(y);
    NoTagsNoMatch(y, 0);
    assert |y| != |x|;
  }

  /** `addAppLayout()` with the guard that evidently was meant: nothing is
      written when the layout already holds `<AppLayout>` or the import
      line. */
  function AddAppLayoutOnce(layout: string): Option<string> {
    if Contains(layout, Open) || Contains(layout, ImportLine) then None
    else Some(ImportLine + WrapChildren(layout))
  }

  /** The guarded command is idempotent: a second run writes nothing. */
  lemma {:induction false} AddOnceIdempotent(x: string)
    ensures AddAppLayoutOnce(x).Some? ==> AddAppLayoutOnce(AddAppLayoutOnce(x).value).None?
  {
    if AddAppLayoutOnce(x).Some? {
      var w := WrapChildren(x);
      assert (ImportLine + w)[0..|ImportLine|] == ImportLine;
      ContainsSlice(ImportLine + w, 0, |ImportLine|);
    }
  }

  /** On a layout without the import line it writes what `addAppLayout()`
      writes, so removing the layout still undoes it. */
  lemma {:induction false} AddOnceAgrees(x: string)
    ensures !Contains(x, ImportLine) ==> AddAppLayoutOnce(x) == AddAppLayout(x)
    ensures Contains(x, ImportLine) ==> AddAppLayoutOnce(x).None?
  {
  }

  /** Round trip for the guarded command. */
  lemma {:induction false} RemoveUndoesAddOnce(x: string)
    requires !Contains(x, Open) && !Contains(x, ImportLine)
    requires |x| > 0 && !IsJsWhitespace(x[0])
    requires FindChildren(x, 0).Some?
    ensures AddAppLayoutOnce(x).Some? && RemoveAppLayout(AddAppLayoutOnce(x).value) == x
  {
    AddOnceAgrees(x);
    RemoveUndoesAdd(x);
  }
}

/** The import line `addAppLayout` puts in front of a Next.js root layout,
    and the match `removeAppLayout` uses to take it out again:
    `import\s*{\s*AppLayout\s*}\s*from\s*['"]next2app['"];\s*\n`,
    replaced by nothing at its first match. The regular expression is
    modelled as a sequence of pieces matched in turn. */
module LayoutImport {
  import opened Wrappers
  import opened Text

  /** The line `addAppLayout` adds. */
  const ImportLine: string := "import { AppLayout } from 'next2app';\n"

  /** The first index from `i` on that is not whitespace. */
  function SkipWhitespace(s: string, i: nat): (j: nat)
    ensures i <= j && (i <= |s| ==> j <= |s|)
    ensures forall k | i <= k < j && k < |s| :: IsJsWhitespace(s[k])
    ensures j < |s| ==> !IsJsWhitespace(s[j])
    decreases |s| - i
  {
    if i < |s| && IsJsWhitespace(s[i]) then SkipWhitespace(s, i + 1) else i
  }

  /** The literal `lit` at `i`, and where it ends. */
  function Expect(s: string, i: nat, lit: string): (r: Option<nat>)
    ensures r.Some? ==> r.value == i + |lit| <= |s|
  {
    if OccursAt(s, lit, i) then Some(i + |lit|) else None
  }

  /** `['"]` at `i`. */
  function Quote(s: string, i: nat): (r: Option<nat>)
    ensures r.Some? ==> r.value == i + 1 <= |s|
  {
    if i < |s| && (s[i] == '\'' || s[i] == '"') then Some(i + 1) else None
  }

  /** One piece of the import pattern: a literal, `\s*`, or `['"]`. */
  datatype Piece = Lit(text: string) | Spaces | QuoteMark

  /** `import\s*{\s*AppLayout\s*}\s*from\s*['"]next2app['"];` */
  const ImportPattern: seq<Piece> :=
    [Lit("import"), Spaces, Lit("{"), Spaces, Lit("AppLayout"), Spaces, Lit("}"), Spaces,
     Lit("from"), Spaces, QuoteMark, Lit("next2app"), QuoteMark, Lit(";")]

  /** Where one piece matched at `i` ends. */
  function MatchPiece(s: string, i: nat, piece: Piece): (r: Option<nat>)
    ensures r.Some? ==> i <= r.value && (i <= |s| ==> r.value <= |s|)
  {
    match piece
    case Lit(t) => Expect(s, i, t)
    case Spaces => Some(SkipWhitespace(s, i))
    case QuoteMark => Quote(s, i)
  }

  /** Where `pieces` matched in turn from `i` end. A `\s*` followed by a
      literal takes all the whitespace there, as no literal of the pattern
      starts with whitespace. */
  function MatchPieces(s: string, i: nat, pieces: seq<Piece>): (r: Option<nat>)
    ensures r.Some? ==> i <= r.value && (i <= |s| ==> r.value <= |s|)
    decreases |pieces|
  {
    if pieces == [] then Some(i)
    else
      var next := MatchPiece(s, i, pieces[0]);
      if next.None? then None else MatchPieces(s, next.value, pieces[1..])
  }

  /** Where a match of the import pattern followed by `\s*\n` that starts
      at `p` ends: the trailing `\s*\n` runs to the last newline of the
      whitespace after the semicolon. */
  function ImportAt(s: string, p: nat): (r: Option<nat>)
  {
    var i := MatchPieces(s, p, ImportPattern);
    if i.None? || i.value > |s| then None
    else
      var j := SkipWhitespace(s, i.value);
      var n := LastIndexOfChar(s[i.value..j], '\n');
      if n.None? then None else Some(i.value + n.value + 1)
  }

  /** The leftmost match of the import pattern from `from` on. */
  function FindImport(s: string, from: nat): (r: Option<(nat, nat)>)
    ensures r.Some? ==> from <= r.value.0 && ImportAt(s, r.value.0).Some? && ImportAt(s, r.value.0).value == r.value.1
    ensures r.Some? ==> r.value.0 <= r.value.1 <= |s|
    decreases |s| - from
  {
    if from > |s| then None
    else if ImportAt(s, from).Some? then Some((from, ImportAt(s, from).value))
    else FindImport(s, from + 1)
  }

  /** `layout.replace(importPattern, "")`. */
  function RemoveImport(s: string): string {
    var m := FindImport(s, 0);
    if m.None? then s else s[..m.value.0] + s[m.value.1..]
  }

  /** One step of the match: the piece at `k` matched at `i` ends at `e`. */
  lemma {:induction false} MatchStep(s: string, i: nat, ps: seq<Piece>, k: nat, e: nat)
    requires k < |ps| && MatchPiece(s, i, ps[k]) == Some(e)
    ensures MatchPieces(s, i, ps[k..]) == MatchPieces(s, e, ps[k + 1..])
  {
    assert ps[k..][0] == ps[k] && ps[k..][1..] == ps[k + 1..];
  }

  /** A literal piece of the import line matches in any string that starts
      with the import line. */
  lemma {:induction false} LiteralInImportLine(s: string, i: nat, t: string)
    requires ImportLine <= s && i + |t| <= |ImportLine| && ImportLine[i..i + |t|] == t
    ensures MatchPiece(s, i, Lit(t)) == Some(i + |t|)
  {
    assert s[i..i + |t|] == ImportLine[i..i + |t|];
  }

  /** Whitespace of length `n` at `i` in the import line, with a character
      that is not whitespace after it. */
  lemma {:induction false} SpacesInImportLine(s: string, i: nat)
    requires ImportLine <= s && i + 1 < |ImportLine|
    requires ImportLine[i] == ' ' && !IsJsWhitespace(ImportLine[i + 1])
    ensures MatchPiece(s, i, Spaces) == Some(i + 1)
  {
    assert s[i] == ImportLine[i] && s[i + 1] == ImportLine[i + 1];
  }

  /** Where each piece of the pattern starts in the import line, and
      where the last one ends. */
  const PiecePositions: seq<nat> := [0, 6, 7, 8, 9, 18, 19, 20, 21, 25, 26, 27, 35, 36, 37]

  /** Each piece of the pattern matches its part of the import line:
      `import`, the space and `{`. */
  lemma {:induction false} PiecesMatchImportBrace(s: string, k: nat)
    requires ImportLine <= s && k < 3
    ensures MatchPiece(s, PiecePositions[k], ImportPattern[k]) == Some(PiecePositions[k + 1])
  {
    if k == 0 { LiteralInImportLine(s, 0, "import"); }
    else if k == 1 { SpacesInImportLine(s, 6); }
    else { assert ImportLine[7] == '{'; LiteralInImportLine(s, 7, "{"); }
  }

  /** The same for the space and `AppLayout`. */
  lemma {:induction false} PiecesMatchName(s: string, k: nat)
    requires ImportLine <= s && 3 <= k < 5
    ensures MatchPiece(s, PiecePositions[k], ImportPattern[k]) == Some(PiecePositions[k + 1])
  {
    if k == 3 { SpacesInImportLine(s, 8); }
    else {
      assert ImportLine[..18] == "import { AppLayout";
      LiteralInImportLine(s, 9, "AppLayout");
    }
  }

  /** The same for the space, `}` and the space after it. */
  lemma {:induction false} PiecesMatchCloseBrace(s: string, k: nat)
    requires ImportLine <= s && 5 <= k < 8
    ensures MatchPiece(s, PiecePositions[k], ImportPattern[k]) == Some(PiecePositions[k + 1])
  {
    if k == 5 { SpacesInImportLine(s, 18); }
    else if k == 6 { assert ImportLine[19] == '}'; LiteralInImportLine(s, 19, "}"); }
    else { SpacesInImportLine(s, 20); }
  }

  /** The same for `from`, the space and the opening quote. */
  lemma {:induction false} PiecesMatchFrom(s: string, k: nat)
    requires ImportLine <= s && 8 <= k < 11
    ensures MatchPiece(s, PiecePositions[k], ImportPattern[k]) == Some(PiecePositions[k + 1])
  {
    if k == 8 { LiteralInImportLine(s, 21, "from"); }
    else if k == 9 { SpacesInImportLine(s, 25); }
    else { assert s[26] == ImportLine[26]; }
  }

  /** The same for the module name, the closing quote and the semicolon. */
  lemma {:induction false} PiecesMatchModule(s: string, k: nat)
    requires ImportLine <= s && 11 <= k < |ImportPattern|
    ensures MatchPiece(s, PiecePositions[k], ImportPattern[k]) == Some(PiecePositions[k + 1])
  {
    if k == 11 { LiteralInImportLine(s, 27, "next2app"); }
    else if k == 12 { assert s[35] == ImportLine[35]; }
    else { assert ImportLine[36] == ';'; LiteralInImportLine(s, 36, ";"); }
  }

  /** The pieces from `k` on match the rest of the import line up to its
      semicolon. */
  lemma {:induction false} PatternMatchesFrom(s: string, k: nat)
    requires ImportLine <= s && k <= |ImportPattern|
    ensures MatchPieces(s, PiecePositions[k], ImportPattern[k..]) == Some(37)
    decreases |ImportPattern| - k
  {
    if k < |ImportPattern| {
      if k < 3 { PiecesMatchImportBrace(s, k); }
      else if k < 5 { PiecesMatchName(s, k); }
      else if k < 8 { PiecesMatchCloseBrace(s, k); }
      else if k < 11 { PiecesMatchFrom(s, k); }
      else { PiecesMatchModule(s, k); }
      MatchStep(s, PiecePositions[k], ImportPattern, k, PiecePositions[k + 1]);
      PatternMatchesFrom(s, k + 1);
    } else {
      assert ImportPattern[k..] == [];
    }
  }

  /** The import line in front of a layout that does not start with
      whitespace is matched at the start, exactly up to its newline. */
  lemma {:induction false} ImportMatchesAtStart(rest: string)
    requires |rest| > 0 && !IsJsWhitespace(rest[0])
    ensures ImportAt(ImportLine + rest, 0).Some? && ImportAt(ImportLine + rest, 0).value == |ImportLine|
  {
    var s := ImportLine + rest;
    assert ImportLine <= s;
    PatternMatchesFrom(s, 0);
    assert ImportPattern[0..] == ImportPattern;
    assert |ImportLine| == 38 && ImportLine[37] == '\n';
    assert s[37] == '\n' && s[38] == rest[0];
    TrailingNewline(s);
  }

  /** The `\s*\n` after the semicolon: a single newline before a character
      that is not whitespace. */
  lemma TrailingNewline(s: string)
    requires |s| > 38 && s[37] == '\n' && !IsJsWhitespace(s[38])
    ensures SkipWhitespace(s, 37) == 38
    ensures LastIndexOfChar(s[37..38], '\n').Some? && LastIndexOfChar(s[37..38], '\n').value == 0
  {
    assert SkipWhitespace(s, 38) == 38;
    assert s[37..38] == ['\n'];
  }

  /** The import line added in front is the one removed. */
  lemma {:induction false} RemoveImportAfterAdd(rest: string)
    requires |rest| > 0 && !IsJsWhitespace(rest[0])
    ensures RemoveImport(ImportLine + rest) == rest
  {
    ImportMatchesAtStart(rest);
    assert (ImportLine + rest)[|ImportLine|..] == rest;
  }
}

/**
 * Stateless builders of CSS `@page` rules (the `size` and `margin`
 * descriptors of CSS Paged Media Module Level 3) that templates can embed to
 * match the page geometry a report was configured with. Each rule is produced
 * by `String.format` from a fixed template; the contracts say what that
 * template expands to.
 */
module PageStyleHelper {
  import opened Wrappers
  import opened JavaStrings

  /** The format string of the single-orientation rule. */
  const PageRuleTemplate := "@page { size: %s %s; margin: %s; }"

  /** The format string of the two-orientation rules, written as the two literals the source concatenates. */
  const MixedRulesTemplate := "@page :portrait { size: %s portrait; margin: %s; } " + "@page :landscape { size: %s landscape; margin: %s; }"

  /** The margin the shorter overloads pass on. */
  const DefaultMargin := "2cm"

  /** The literal text of `PageRuleTemplate` between its conversions. */
  const PageRulePieces := ["@page { size: ", " ", "; margin: ", "; }"]

  /** The literal text of `MixedRulesTemplate` between its conversions. */
  const MixedRulesPieces := ["@page :portrait { size: ", " portrait; margin: ", "; } @page :landscape { size: ", " landscape; margin: ", "; }"]

  /** `Template` and `Interleave` of one more piece in front: one more conversion, or one more argument, after it. */
  lemma OneMorePiece(p: string, ps: seq<string>, a: string, xs: seq<string>)
    requires |ps| == |xs| + 1
    ensures Template([p] + ps) == p + ("%s" + Template(ps))
    ensures Interleave([p] + ps, [a] + xs) == p + (a + Interleave(ps, xs))
  {
    assert ([p] + ps)[1..] == ps && ([a] + xs)[1..] == xs;
  }

  /** `Template` and `Interleave` of four pieces, unfolded. */
  lemma FourPieces(p0: string, p1: string, p2: string, p3: string, a: string, b: string, c: string)
    ensures Template([p0, p1, p2, p3]) == p0 + "%s" + p1 + "%s" + p2 + "%s" + p3
    ensures Interleave([p0, p1, p2, p3], [a, b, c]) == p0 + a + p1 + b + p2 + c + p3
  {
    OneMorePiece(p2, [p3], c, []);
    assert [p2] + [p3] == [p2, p3] && [c] + [] == [c];
    OneMorePiece(p1, [p2, p3], b, [c]);
    assert [p1] + [p2, p3] == [p1, p2, p3] && [b] + [c] == [b, c];
    OneMorePiece(p0, [p1, p2, p3], a, [b, c]);
    assert [p0] + [p1, p2, p3] == [p0, p1, p2, p3] && [a] + [b, c] == [a, b, c];
  }

  /** `Template` and `Interleave` of five pieces, unfolded. */
  lemma FivePieces(p0: string, p1: string, p2: string, p3: string, p4: string, a: string, b: string, c: string, d: string)
    ensures Template([p0, p1, p2, p3, p4]) == p0 + "%s" + p1 + "%s" + p2 + "%s" + p3 + "%s" + p4
    ensures Interleave([p0, p1, p2, p3, p4], [a, b, c, d]) == p0 + a + p1 + b + p2 + c + p3 + d + p4
  {
    FourPieces(p1, p2, p3, p4, b, c, d);
    OneMorePiece(p0, [p1, p2, p3, p4], a, [b, c, d]);
    assert [p0] + [p1, p2, p3, p4] == [p0, p1, p2, p3, p4] && [a] + [b, c, d] == [a, b, c, d];
  }

  /** Two halves of two insertions each, joined, are one sequence of four insertions whose middle piece spans the join. */
  lemma JoinHalves(p0: string, p1: string, x: string, y: string, p3: string, p4: string, a: string, b: string, c: string, d: string)
    ensures (p0 + a + p1 + b + x) + (y + c + p3 + d + p4) == p0 + a + p1 + b + (x + y) + c + p3 + d + p4
  {
  }

  /** Two adjacent pieces of text in a left-nested concatenation merge into one. */
  lemma MergePieces(p0: string, p1: string, x: string, y: string, p3: string, p4: string, a: string, b: string, c: string, d: string)
    ensures p0 + a + p1 + b + x + y + c + p3 + d + p4 == p0 + a + p1 + b + (x + y) + c + p3 + d + p4
  {
  }

  /** The single-orientation literal, cut at its conversions. */
  lemma PageRuleLiteral()
    ensures "@page { size: %s %s; margin: %s; }" == "@page { size: " + "%s" + " " + "%s" + "; margin: " + "%s" + "; }"
  {
  }

  /** The pieces of the single-orientation template hold no `%`. */
  lemma PageRulePiecesLiteral()
    ensures forall i :: 0 <= i < |PageRulePieces| ==> '%' !in PageRulePieces[i]
  {
  }

  /** The pieces of the single-orientation template hold no `%`, and the template is the pieces joined by `%s`. */
  lemma PageRuleTemplateShape()
    ensures forall i :: 0 <= i < |PageRulePieces| ==> '%' !in PageRulePieces[i]
    ensures PageRuleTemplate == Template(PageRulePieces)
  {
    PageRulePiecesLiteral();
    PageRuleLiteral();
    FourPieces("@page { size: ", " ", "; margin: ", "; }", "", "", "");
  }

  /** Formatting the single-orientation template never throws and interleaves its three arguments with the literal text. */
  lemma PageRuleExpansion(pageSize: string, orientation: string, margins: string)
    ensures Format(PageRuleTemplate, [pageSize, orientation, margins])
         == Some("@page { size: " + pageSize + " " + orientation + "; margin: " + margins + "; }")
  {
    PageRuleTemplateShape();
    FourPieces("@page { size: ", " ", "; margin: ", "; }", pageSize, orientation, margins);
    FormatTemplate(PageRulePieces, [pageSize, orientation, margins]);
  }

  /** The first literal of the two-orientation template, cut at its conversions. */
  lemma PortraitRuleLiteral()
    ensures "@page :portrait { size: %s portrait; margin: %s; } "
         == "@page :portrait { size: " + "%s" + " portrait; margin: " + "%s" + "; } "
  {
  }

  /** The second literal of the two-orientation template, cut at its conversions. */
  lemma LandscapeRuleLiteral()
    ensures "@page :landscape { size: %s landscape; margin: %s; }"
         == "@page :landscape { size: " + "%s" + " landscape; margin: " + "%s" + "; }"
  {
  }

  /** The piece between the second and third conversions spans the two literals. */
  lemma MiddlePieceSpansLiterals()
    ensures "; } " + "@page :landscape { size: " == "; } @page :landscape { size: "
  {
  }

  /** The pieces of the two-orientation template hold no `%`. */
  lemma MixedRulesPiecesLiteral()
    ensures forall i :: 0 <= i < |MixedRulesPieces| ==> '%' !in MixedRulesPieces[i]
  {
  }

  /** The two-orientation template is its pieces joined by four `%s` conversions, and the pieces hold no other `%`. */
  lemma MixedRulesTemplateShape()
    ensures forall i :: 0 <= i < |MixedRulesPieces| ==> '%' !in MixedRulesPieces[i]
    ensures MixedRulesTemplate == Template(MixedRulesPieces)
  {
    MixedRulesPiecesLiteral();
    PortraitRuleLiteral();
    LandscapeRuleLiteral();
    MiddlePieceSpansLiterals();
    FivePieces("@page :portrait { size: ", " portrait; margin: ", "; } @page :landscape { size: ", " landscape; margin: ", "; }",
               "", "", "", "");
    JoinHalves("@page :portrait { size: ", " portrait; margin: ", "; } ", "@page :landscape { size: ", " landscape; margin: ", "; }",
               "%s", "%s", "%s", "%s");
  }

  /** Formatting the two-orientation template never throws and places the page size and the margins in both rules. */
  lemma MixedRulesExpansion(pageSize: string, margins: string)
    ensures Format(MixedRulesTemplate, [pageSize, margins, pageSize, margins])
         == Some("@page :portrait { size: " + pageSize + " portrait; margin: " + margins + "; } "
               + "@page :landscape { size: " + pageSize + " landscape; margin: " + margins + "; }")
  {
    MixedRulesTemplateShape();
    MiddlePieceSpansLiterals();
    FivePieces("@page :portrait { size: ", " portrait; margin: ", "; } @page :landscape { size: ", " landscape; margin: ", "; }",
               pageSize, margins, pageSize, margins);
    MergePieces("@page :portrait { size: ", " portrait; margin: ", "; } ", "@page :landscape { size: ", " landscape; margin: ", "; }",
                pageSize, margins, pageSize, margins);
    FormatTemplate(MixedRulesPieces, [pageSize, margins, pageSize, margins]);
  }

  /** `generatePageStyle(pageSize, orientation, margins)`: one `@page` rule setting the page size, orientation and margins. */
  function GeneratePageStyle(pageSize: string, orientation: string, margins: string): (r: string)
    ensures r == "@page { size: " + pageSize + " " + orientation + "; margin: " + margins + "; }"
  {
    PageRuleExpansion(pageSize, orientation, margins);
    Format(PageRuleTemplate, [pageSize, orientation, margins]).value
  }

  /** `generatePageStyle(pageSize, orientation)`: the same rule with a two-centimetre margin. */
  function GeneratePageStyleWithDefaultMargin(pageSize: string, orientation: string): (r: string)
    ensures r == "@page { size: " + pageSize + " " + orientation + "; margin: " + DefaultMargin + "; }"
  {
    GeneratePageStyle(pageSize, orientation, DefaultMargin)
  }

  /** `generateMixedOrientationStyles(pageSize, margins)`: a `:portrait` rule followed by a `:landscape` rule of the same size and margins. */
  function GenerateMixedOrientationStyles(pageSize: string, margins: string): (r: string)
    ensures r == "@page :portrait { size: " + pageSize + " portrait; margin: " + margins + "; } "
               + "@page :landscape { size: " + pageSize + " landscape; margin: " + margins + "; }"
  {
    MixedRulesExpansion(pageSize, margins);
    Format(MixedRulesTemplate, [pageSize, margins, pageSize, margins]).value
  }

  /** `generateMixedOrientationStyles(pageSize)`: the same two rules with a two-centimetre margin. */
  function GenerateMixedOrientationStylesWithDefaultMargin(pageSize: string): (r: string)
    ensures r == "@page :portrait { size: " + pageSize + " portrait; margin: " + DefaultMargin + "; } "
               + "@page :landscape { size: " + pageSize + " landscape; margin: " + DefaultMargin + "; }"
  {
    GenerateMixedOrientationStyles(pageSize, DefaultMargin)
  }

  /** Where each argument lands when three arguments are interleaved with four pieces of text. */
  lemma ThreeSlots(t0: string, t1: string, t2: string, t3: string, x: string, y: string, z: string)
    ensures var r := t0 + x + t1 + y + t2 + z + t3;
      && |r| == |t0| + |t1| + |t2| + |t3| + |x| + |y| + |z|
      && r[..|t0|] == t0
      && r[|r| - |t3|..] == t3
      && r[|t0|..|t0| + |x|] == x
      && r[|t0| + |x| + |t1|..|t0| + |x| + |t1| + |y|] == y
      && r[|t0| + |x| + |t1| + |y| + |t2|..|t0| + |x| + |t1| + |y| + |t2| + |z|] == z
  {
    var r := t0 + x + t1 + y + t2 + z + t3;
    var a := t0 + x;
    var b := a + t1 + y;
    var c := b + t2 + z;
    assert r[..|t0|] == a[..|t0|];
    assert r[|t0|..|t0| + |x|] == a[|t0|..];
    assert r[|a| + |t1|..|a| + |t1| + |y|] == b[|a| + |t1|..];
    assert r[|b| + |t2|..|b| + |t2| + |z|] == c[|b| + |t2|..];
  }

  /**
   * The single rule starts with `@page `, ends with `; }`, adds 28 characters
   * of its own, and holds each argument verbatim at a position fixed by the
   * lengths of the arguments before it.
   */
  lemma PageStyleLayout(pageSize: string, orientation: string, margins: string)
    ensures var r := GeneratePageStyle(pageSize, orientation, margins);
      && |r| == |pageSize| + |orientation| + |margins| + 28
      && r[..6] == "@page "
      && r[|r| - 3..] == "; }"
      && r[14..14 + |pageSize|] == pageSize
      && r[15 + |pageSize|..15 + |pageSize| + |orientation|] == orientation
      && r[25 + |pageSize| + |orientation|..25 + |pageSize| + |orientation| + |margins|] == margins
  {
    var r := GeneratePageStyle(pageSize, orientation, margins);
    PageRulePieceLengths();
    ThreeSlots("@page { size: ", " ", "; margin: ", "; }", pageSize, orientation, margins);
    PrefixOfPrefix(r, "@page { size: ", 6);
    PageRulePrefix();
  }

  /** The lengths of the literal pieces of the single-orientation rule. */
  lemma PageRulePieceLengths()
    ensures |"@page { size: "| == 14 && |" "| == 1 && |"; margin: "| == 10 && |"; }"| == 3
  {
  }

  /** The single-orientation rule's first piece starts with `@page `. */
  lemma PageRulePrefix()
    ensures "@page { size: "[..6] == "@page "
  {
  }

  /** A prefix of a prefix. */
  lemma PrefixOfPrefix(r: string, t: string, k: nat)
    requires k <= |t| <= |r| && r[..|t|] == t
    ensures r[..k] == t[..k]
  {
    assert r[..k] == r[..|t|][..k];
  }

  /** A slice of a concatenation that lies within its left part. */
  lemma SliceOfLeft(u: string, v: string, i: nat, j: nat)
    requires i <= j <= |u|
    ensures (u + v)[i..j] == u[i..j]
  {
  }

  /** A slice of a concatenation that lies within its right part. */
  lemma SliceOfRight(u: string, v: string, i: nat, j: nat)
    requires |u| <= i <= j <= |u| + |v|
    ensures (u + v)[i..j] == v[i - |u|..j - |u|]
  {
  }

  /** Where each argument lands when two arguments are interleaved with three pieces of text. */
  lemma TwoSlots(t0: string, t1: string, t2: string, x: string, y: string)
    ensures var r := t0 + x + t1 + y + t2;
      && |r| == |t0| + |t1| + |t2| + |x| + |y|
      && r[..|t0|] == t0
      && r[|r| - |t2|..] == t2
      && r[|t0|..|t0| + |x|] == x
      && r[|r| - |t2| - |y|..|r| - |t2|] == y
  {
    var r := t0 + x + t1 + y + t2;
    var a := t0 + x;
    var b := a + t1 + y;
    assert r[..|t0|] == a[..|t0|];
    assert r[|t0|..|t0| + |x|] == a[|t0|..];
    assert r[|r| - |t2| - |y|..|r| - |t2|] == b[|a| + |t1|..];
  }

  /** Where each argument lands in two concatenated halves, each interleaving two arguments with three pieces of text. */
  lemma FourSlots(t0: string, t1: string, t2: string, u0: string, u1: string, u2: string, w: string, x: string, y: string, z: string)
    ensures var r := t0 + w + t1 + x + t2 + u0 + y + u1 + z + u2;
      && |r| == |t0| + |t1| + |t2| + |u0| + |u1| + |u2| + |w| + |x| + |y| + |z|
      && r[..|t0|] == t0
      && r[|r| - |u2|..] == u2
      && r[|t0|..|t0| + |w|] == w
      && r[|t0| + |w| + |t1|..|t0| + |w| + |t1| + |x|] == x
      && r[|t0| + |w| + |t1| + |x| + |t2| + |u0|..|t0| + |w| + |t1| + |x| + |t2| + |u0| + |y|] == y
      && r[|r| - |u2| - |z|..|r| - |u2|] == z
  {
    var left := t0 + w + t1 + x + t2;
    var right := u0 + y + u1 + z + u2;
    var r := left + right;
    Regroup(left, u0, y, u1, z, u2);
    TwoSlots(t0, t1, t2, w, x);
    TwoSlots(u0, u1, u2, y, z);
    SliceOfLeft(left, right, 0, |t0|);
    SliceOfLeft(left, right, |t0|, |t0| + |w|);
    SliceOfLeft(left, right, |left| - |t2| - |x|, |left| - |t2|);
    SliceOfRight(left, right, |left| + |u0|, |left| + |u0| + |y|);
    SliceOfRight(left, right, |r| - |u2| - |z|, |r| - |u2|);
    SliceOfRight(left, right, |r| - |u2|, |r|);
  }

  /** A left-nested concatenation continued by five more parts is the first part followed by the other five. */
  lemma Regroup(l: string, u0: string, y: string, u1: string, z: string, u2: string)
    ensures l + u0 + y + u1 + z + u2 == l + (u0 + y + u1 + z + u2)
  {
  }

  /**
   * The two rules start with `@page `, end with `; }`, add 95 characters of
   * their own, and hold the page size twice and the margins twice, each
   * verbatim at a position fixed by the argument lengths.
   */
  lemma MixedStylesLayout(pageSize: string, margins: string)
    ensures var r := GenerateMixedOrientationStyles(pageSize, margins);
      && |r| == 2 * |pageSize| + 2 * |margins| + 95
      && r[..6] == "@page "
      && r[|r| - 3..] == "; }"
      && r[24..24 + |pageSize|] == pageSize
      && r[43 + |pageSize|..43 + |pageSize| + |margins|] == margins
      && r[72 + |pageSize| + |margins|..72 + 2 * |pageSize| + |margins|] == pageSize
      && r[92 + 2 * |pageSize| + |margins|..92 + 2 * |pageSize| + 2 * |margins|] == margins
  {
    var r := GenerateMixedOrientationStyles(pageSize, margins);
    MixedRulesPieceLengths();
    FourSlots("@page :portrait { size: ", " portrait; margin: ", "; } ",
              "@page :landscape { size: ", " landscape; margin: ", "; }",
              pageSize, margins, pageSize, margins);
    PrefixOfPrefix(r, "@page :portrait { size: ", 6);
    MixedRulesPrefix();
  }

  /** The lengths of the literal pieces of the two-orientation rules. */
  lemma MixedRulesPieceLengths()
    ensures |"@page :portrait { size: "| == 24 && |" portrait; margin: "| == 19 && |"; } "| == 4
    ensures |"@page :landscape { size: "| == 25 && |" landscape; margin: "| == 20 && |"; }"| == 3
  {
  }

  /** The two-orientation rules' first piece starts with `@page `. */
  lemma MixedRulesPrefix()
    ensures "@page :portrait { size: "[..6] == "@page "
  {
  }
}

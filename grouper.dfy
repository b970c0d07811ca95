/**
 * `Blocks._group_lines`: the classifier's flat list of lines is cut into
 * groups, a new group starting at every line of indent 0. Each group becomes
 * one top-level block.
 */
module Grouper {
  import opened Classifier
  import opened Seqs

  /** The lines of the groups, in order (`sum(groups, [])`). */
  function Flatten(groups: seq<seq<Line>>): seq<Line> {
    if groups == [] then [] else Flatten(groups[..|groups| - 1]) + groups[|groups| - 1]
  }

  /**
   * The groups of `lines`, line by line: a line of indent 0 starts a new group,
   * any other line joins the current one (or starts the first group).
   */
  function Groups(lines: seq<Line>): (g: seq<seq<Line>>)
    ensures |g| <= |lines|
    ensures lines != [] <==> g != []
  {
    if lines == [] then []
    else
      var prev := Groups(lines[..|lines| - 1]);
      var l := lines[|lines| - 1];
      if l.indent == 0 || prev == [] then prev + [[l]]
      else prev[..|prev| - 1] + [prev[|prev| - 1] + [l]]
  }

  /** Every group holds at least one line. */
  predicate NonEmptyGroups(g: seq<seq<Line>>) {
    forall j :: 0 <= j < |g| ==> g[j] != []
  }

  /** Every group after the first starts with a line of indent 0. */
  predicate CutAtUnindented(g: seq<seq<Line>>) {
    forall j :: 0 < j < |g| && g[j] != [] ==> g[j][0].indent == 0
  }

  /** No line of a group other than its first has indent 0. */
  predicate IndentedTails(g: seq<seq<Line>>) {
    forall j, k :: 0 <= j < |g| && 0 < k < |g[j]| ==> g[j][k].indent != 0
  }

  /** What `_group_lines` promises: the groups cover the input, are non-empty, and cut exactly at indent-0 lines. */
  predicate IsGrouping(lines: seq<Line>, g: seq<seq<Line>>) {
    Flatten(g) == lines && NonEmptyGroups(g) && CutAtUnindented(g) && IndentedTails(g)
  }

  lemma FlattenSnoc(g: seq<seq<Line>>, x: seq<Line>)
    ensures Flatten(g + [x]) == Flatten(g) + x
  {
    assert (g + [x])[..|g|] == g;
  }

  /** Starting a new group with `l` keeps the shape, when `l` is unindented or there is no group yet. */
  lemma StartGroup(g: seq<seq<Line>>, l: Line)
    requires NonEmptyGroups(g) && CutAtUnindented(g) && IndentedTails(g)
    requires l.indent == 0 || g == []
    ensures NonEmptyGroups(g + [[l]]) && CutAtUnindented(g + [[l]]) && IndentedTails(g + [[l]])
  {
    var h: seq<seq<Line>> := g + [[l]];
    forall j | 0 <= j < |h| ensures h[j] != [] {
      if j < |g| { assert h[j] == g[j]; }
    }
    forall j | 0 < j < |h| && h[j] != [] ensures h[j][0].indent == 0 {
      if j < |g| { assert h[j] == g[j]; }
    }
    forall j, k | 0 <= j < |h| && 0 < k < |h[j]| ensures h[j][k].indent != 0 {
      assert j < |g|;
      assert h[j] == g[j];
    }
  }

  /** Appending an indented line to the last group keeps the shape. */
  lemma JoinGroup(g: seq<seq<Line>>, l: Line)
    requires NonEmptyGroups(g) && CutAtUnindented(g) && IndentedTails(g)
    requires l.indent != 0 && g != []
    ensures var h := g[..|g| - 1] + [g[|g| - 1] + [l]];
      NonEmptyGroups(h) && CutAtUnindented(h) && IndentedTails(h)
  {
    var n := |g|;
    var h: seq<seq<Line>> := g[..n - 1] + [g[n - 1] + [l]];
    forall j | 0 <= j < |h| ensures h[j] != [] {
      if j < n - 1 { assert h[j] == g[j]; }
    }
    forall j | 0 < j < |h| && h[j] != [] ensures h[j][0].indent == 0 {
      if j < n - 1 { assert h[j] == g[j]; } else { assert h[j][0] == g[j][0]; }
    }
    forall j, k | 0 <= j < |h| && 0 < k < |h[j]| ensures h[j][k].indent != 0 {
      if j < n - 1 { assert h[j] == g[j]; }
      else if k < |g[n - 1]| { assert h[j][k] == g[j][k]; }
    }
  }

  /** `Groups` is a grouping of its input. */
  lemma {:induction false} GroupsIsGrouping(lines: seq<Line>)
    ensures IsGrouping(lines, Groups(lines))
  {
    if lines != [] {
      var ls := lines[..|lines| - 1];
      var l := lines[|lines| - 1];
      var prev := Groups(ls);
      GroupsIsGrouping(ls);
      SnocSplit(lines);
      if l.indent == 0 || prev == [] {
        StartCase(ls, l, prev);
      } else {
        JoinCase(ls, l, prev);
      }
    }
  }

  lemma StartCase(ls: seq<Line>, l: Line, prev: seq<seq<Line>>)
    requires IsGrouping(ls, prev) && (l.indent == 0 || prev == [])
    ensures IsGrouping(ls + [l], prev + [[l]])
  {
    FlattenSnoc(prev, [l]);
    StartGroup(prev, l);
  }

  lemma JoinCase(ls: seq<Line>, l: Line, prev: seq<seq<Line>>)
    requires IsGrouping(ls, prev) && l.indent != 0 && prev != []
    ensures IsGrouping(ls + [l], prev[..|prev| - 1] + [prev[|prev| - 1] + [l]])
  {
    var init, last := prev[..|prev| - 1], prev[|prev| - 1];
    assert prev == init + [last];
    FlattenSnoc(init, last);
    FlattenSnoc(init, last + [l]);
    assert Flatten(init) + (last + [l]) == (Flatten(init) + last) + [l];
    JoinGroup(prev, l);
  }

  /** Dropping the last line of a grouping whose last group is longer than one line leaves a grouping. */
  lemma ShrinkGroup(g: seq<seq<Line>>)
    requires NonEmptyGroups(g) && CutAtUnindented(g) && IndentedTails(g)
    requires g != [] && |g[|g| - 1]| > 1
    ensures var h := g[..|g| - 1] + [g[|g| - 1][..|g[|g| - 1]| - 1]];
      NonEmptyGroups(h) && CutAtUnindented(h) && IndentedTails(h)
  {
    var n := |g|;
    var h: seq<seq<Line>> := g[..n - 1] + [g[n - 1][..|g[n - 1]| - 1]];
    forall j | 0 <= j < |h| ensures h[j] != [] {
      if j < n - 1 { assert h[j] == g[j]; }
    }
    forall j | 0 < j < |h| && h[j] != [] ensures h[j][0].indent == 0 {
      if j < n - 1 { assert h[j] == g[j]; } else { assert h[j][0] == g[j][0]; }
    }
    forall j, k | 0 <= j < |h| && 0 < k < |h[j]| ensures h[j][k].indent != 0 {
      if j < n - 1 { assert h[j] == g[j]; } else { assert h[j][k] == g[j][k]; }
    }
  }

  /** Dropping a last group of one line leaves a grouping. */
  lemma DropGroup(g: seq<seq<Line>>)
    requires NonEmptyGroups(g) && CutAtUnindented(g) && IndentedTails(g)
    requires g != []
    ensures var h := g[..|g| - 1];
      NonEmptyGroups(h) && CutAtUnindented(h) && IndentedTails(h)
  {
    var h: seq<seq<Line>> := g[..|g| - 1];
    assert forall j :: 0 <= j < |h| ==> h[j] == g[j];
  }

  /** The grouping is unique: any grouping of `lines` is the one `Groups` computes. */
  lemma {:induction false} GroupingIsUnique(lines: seq<Line>, g: seq<seq<Line>>)
    requires IsGrouping(lines, g)
    ensures g == Groups(lines)
  {
    if g == [] {
      assert lines == [];
    } else {
      var n := |g|;
      var init := g[..n - 1];
      var last := g[n - 1];
      assert g == init + [last];
      FlattenSnoc(init, last);
      var l := last[|last| - 1];
      var ls := lines[..|lines| - 1];
      assert last != [];
      assert lines == Flatten(init) + last;
      assert lines[|lines| - 1] == l;
      if |last| == 1 {
        assert last == [l];
        assert ls == Flatten(init);
        DropGroup(g);
        GroupingIsUnique(ls, init);
        if n > 1 {
          assert g[n - 1][0].indent == 0;
        } else {
          assert Flatten(init) == [];
        }
      } else {
        var last' := last[..|last| - 1];
        var g' := init + [last'];
        FlattenSnoc(init, last');
        assert last == last' + [l];
        assert ls == Flatten(g');
        ShrinkGroup(g);
        GroupingIsUnique(ls, g');
        assert g[n - 1][|last| - 1].indent != 0;
        assert g'[..|g'| - 1] == init;
      }
    }
  }

  /** `_group_lines`, with its loop over the lines and its `current_group` buffer. */
  method GroupLines(lines: seq<Line>) returns (groups: seq<seq<Line>>)
    ensures groups == Groups(lines)
  {
    groups := [];
    var current: seq<Line> := [];
    for i := 0 to |lines|
      invariant i == 0 ==> groups == [] && current == []
      invariant i > 0 ==> current != [] && groups + [current] == Groups(lines[..i])
    {
      assert lines[..i + 1][..i] == lines[..i];
      ghost var prev := Groups(lines[..i]);
      assert Groups(lines[..i + 1]) == if lines[i].indent == 0 || prev == [] then prev + [[lines[i]]]
                                       else prev[..|prev| - 1] + [prev[|prev| - 1] + [lines[i]]];
      if i > 0 {
        assert prev[..|prev| - 1] == groups && prev[|prev| - 1] == current;
      } else {
        assert prev == [];
      }
      var line := lines[i];
      if line.indent == 0 {
        if current != [] {
          groups := groups + [current];
        }
        current := [line];
      } else {
        assert i == 0 ==> current + [line] == [line];
        current := current + [line];
      }
    }
    if current != [] {
      groups := groups + [current];
    }
    assert lines[..|lines|] == lines;
  }

  /** A document of one unindented line per block gives one group per line. */
  lemma {:induction false} FlatDocument(lines: seq<Line>)
    requires forall i :: 0 <= i < |lines| ==> lines[i].indent == 0
    ensures Groups(lines) == seq(|lines|, i requires 0 <= i < |lines| => [lines[i]])
  {
    if lines != [] {
      FlatDocument(lines[..|lines| - 1]);
    }
  }
}

/**
 * `Blocks._build_hierarchy`: one group of classified lines becomes a tree of
 * `BlockGroup` nodes. A stack of open nodes is kept; each new line pops every
 * open node whose indent is not smaller than its own and becomes the last
 * child of the node left on top.
 *
 * In the source a node is appended to its parent when it is pushed and then
 * keeps growing through aliasing. Here nodes are values: a node is attached
 * to the node below it when it is popped, and the nodes still open at the end
 * are closed the same way. The child lists come out the same, since a parent
 * receives its next child only after the previous one has been popped.
 */
module Hierarchy {
  import opened Classifier
  import opened Seqs

  /** `BlockGroup`: a classified line together with its child groups. */
  datatype BlockGroup = BlockGroup(kind: Kind, text: string, indent: nat, children: seq<BlockGroup>)

  /** The leaf node of a line. */
  function Leaf(l: Line): BlockGroup {
    BlockGroup(l.kind, l.text, l.indent, [])
  }

  /** The line a node was built from. */
  function LineOf(n: BlockGroup): Line {
    Line(n.kind, n.indent, n.text)
  }

  /** `parent.children.append(child)`. */
  function AddChild(parent: BlockGroup, child: BlockGroup): BlockGroup {
    parent.(children := parent.children + [child])
  }

  /**
   * Pops the top open node; it becomes the last child of the node below it, or falls
   * away when it was the root. `PopKeepsShape` and `PopPreorder` state what it preserves.
   */
  function Pop(stack: seq<BlockGroup>): (r: seq<BlockGroup>)
    requires stack != []
    ensures |r| == |stack| - 1
  {
    var n := |stack|;
    if n == 1 then [] else stack[..n - 2] + [AddChild(stack[n - 2], stack[n - 1])]
  }

  /** `while stack and stack[-1][0] >= indent: stack.pop()`. */
  function PopWhile(stack: seq<BlockGroup>, indent: nat): (r: seq<BlockGroup>)
    ensures |r| <= |stack|
    ensures r != [] ==> r[|r| - 1].indent < indent
    decreases |stack|
  {
    if stack != [] && stack[|stack| - 1].indent >= indent then PopWhile(Pop(stack), indent) else stack
  }

  /** One iteration of the loop: pop, then push the new line's node. */
  function Push(stack: seq<BlockGroup>, l: Line): seq<BlockGroup> {
    PopWhile(stack, l.indent) + [Leaf(l)]
  }

  /** The open nodes after the lines of `group` have been read. */
  function StackAfter(group: seq<Line>): (r: seq<BlockGroup>)
    ensures group != [] ==> r != []
  {
    if group == [] then [] else Push(StackAfter(group[..|group| - 1]), group[|group| - 1])
  }

  /** Attaches every open node to the one below it; the bottom node is the root. */
  function CloseAll(stack: seq<BlockGroup>): BlockGroup
    requires stack != []
    decreases |stack|
  {
    if |stack| == 1 then stack[0] else CloseAll(Pop(stack))
  }

  /** The tree `_build_hierarchy` returns for a non-empty group. */
  function Build(group: seq<Line>): BlockGroup
    requires group != []
  {
    CloseAll(StackAfter(group))
  }

  // ---- the stack invariant and the shape of the tree ----

  /** The indents on the stack strictly increase from bottom to top. */
  predicate Increasing(stack: seq<BlockGroup>) {
    forall i, j :: 0 <= i < j < |stack| ==> stack[i].indent < stack[j].indent
  }

  /** Every child is indented strictly deeper than its parent, at every depth. */
  predicate Nested(n: BlockGroup)
    decreases n, 1
  {
    forall i :: 0 <= i < |n.children| ==> n.children[i].indent > n.indent && Nested(n.children[i])
  }

  predicate AllNested(stack: seq<BlockGroup>) {
    forall i :: 0 <= i < |stack| ==> Nested(stack[i])
  }

  lemma PopKeepsShape(stack: seq<BlockGroup>)
    requires stack != [] && Increasing(stack) && AllNested(stack)
    ensures Increasing(Pop(stack)) && AllNested(Pop(stack))
  {
    var n := |stack|;
    if n > 1 {
      var p := AddChild(stack[n - 2], stack[n - 1]);
      assert forall i :: 0 <= i < |p.children| ==> p.children[i] == if i < |stack[n - 2].children| then stack[n - 2].children[i] else stack[n - 1];
      assert Nested(p);
    }
  }

  lemma {:induction false} PopWhileKeepsShape(stack: seq<BlockGroup>, indent: nat)
    requires Increasing(stack) && AllNested(stack)
    ensures Increasing(PopWhile(stack, indent)) && AllNested(PopWhile(stack, indent))
    decreases |stack|
  {
    if stack != [] && stack[|stack| - 1].indent >= indent {
      PopKeepsShape(stack);
      PopWhileKeepsShape(Pop(stack), indent);
    }
  }

  /** The open nodes always have strictly increasing indents, and every subtree already built is nested. */
  lemma {:induction false} StackInvariant(group: seq<Line>)
    ensures Increasing(StackAfter(group)) && AllNested(StackAfter(group))
  {
    if group != [] {
      var prev := StackAfter(group[..|group| - 1]);
      var l := group[|group| - 1];
      StackInvariant(group[..|group| - 1]);
      PopWhileKeepsShape(prev, l.indent);
      PushKeepsShape(PopWhile(prev, l.indent), l);
    }
  }

  /** Pushing a line deeper than the top of the stack keeps the shape. */
  lemma PushKeepsShape(stack: seq<BlockGroup>, l: Line)
    requires Increasing(stack) && AllNested(stack)
    requires stack != [] ==> stack[|stack| - 1].indent < l.indent
    ensures Increasing(stack + [Leaf(l)]) && AllNested(stack + [Leaf(l)])
  {
    var s := stack + [Leaf(l)];
    forall i, j | 0 <= i < j < |s| ensures s[i].indent < s[j].indent {
      if j < |stack| {
        assert s[i] == stack[i] && s[j] == stack[j];
      } else {
        assert s[i] == stack[i];
        assert stack[i].indent <= stack[|stack| - 1].indent;
      }
    }
    forall i | 0 <= i < |s| ensures Nested(s[i]) {
      if i < |stack| {
        assert s[i] == stack[i];
      }
    }
  }

  lemma {:induction false} CloseAllNested(stack: seq<BlockGroup>)
    requires stack != [] && Increasing(stack) && AllNested(stack)
    ensures Nested(CloseAll(stack))
    decreases |stack|
  {
    if |stack| > 1 {
      PopKeepsShape(stack);
      CloseAllNested(Pop(stack));
    }
  }

  /** Every node of the hierarchy has children indented strictly deeper than itself. */
  lemma BuildIsNested(group: seq<Line>)
    requires group != []
    ensures Nested(Build(group))
  {
    StackInvariant(group);
    CloseAllNested(StackAfter(group));
  }

  // ---- preorder ----

  /** The lines of a tree in preorder: the node, then each child's subtree in order. */
  function Preorder(n: BlockGroup): seq<Line>
    decreases n, 1
  {
    [LineOf(n)] + Forest(n.children)
  }

  /** The preorders of a list of trees, concatenated. */
  function Forest(ns: seq<BlockGroup>): seq<Line>
    decreases ns, 0
  {
    if ns == [] then [] else Forest(ns[..|ns| - 1]) + Preorder(ns[|ns| - 1])
  }

  lemma ForestSnoc(ns: seq<BlockGroup>, n: BlockGroup)
    ensures Forest(ns + [n]) == Forest(ns) + Preorder(n)
  {
    assert (ns + [n])[..|ns|] == ns;
  }

  /** Attaching a child appends its preorder to its parent's. */
  lemma AddChildPreorder(p: BlockGroup, c: BlockGroup)
    ensures Preorder(AddChild(p, c)) == Preorder(p) + Preorder(c)
  {
    ForestSnoc(p.children, c);
  }

  /** Attaching the top node to the one below it leaves the stack's preorder as it was. */
  lemma PopPreorder(stack: seq<BlockGroup>)
    requires |stack| >= 2
    ensures Forest(Pop(stack)) == Forest(stack)
  {
    var n := |stack|;
    PoppedForest(stack);
    StackForest(stack);
    Assoc(Forest(stack[..n - 2]), Preorder(stack[n - 2]), Preorder(stack[n - 1]));
  }

  lemma PoppedForest(stack: seq<BlockGroup>)
    requires |stack| >= 2
    ensures var n := |stack|;
      Forest(Pop(stack)) == Forest(stack[..n - 2]) + (Preorder(stack[n - 2]) + Preorder(stack[n - 1]))
  {
    var n := |stack|;
    var below, parent, top := stack[..n - 2], stack[n - 2], stack[n - 1];
    assert Pop(stack) == below + [AddChild(parent, top)];
    ForestSnoc(below, AddChild(parent, top));
    AddChildPreorder(parent, top);
  }

  lemma StackForest(stack: seq<BlockGroup>)
    requires |stack| >= 2
    ensures var n := |stack|;
      Forest(stack) == (Forest(stack[..n - 2]) + Preorder(stack[n - 2])) + Preorder(stack[n - 1])
  {
    var n := |stack|;
    assert stack[..n - 1][..n - 2] == stack[..n - 2];
  }

  /** The bottom of the stack is never popped by a line deeper than it. */
  lemma {:induction false} PopWhileAbove(stack: seq<BlockGroup>, indent: nat)
    requires stack != [] && stack[0].indent < indent
    ensures PopWhile(stack, indent) != [] && PopWhile(stack, indent)[0].indent == stack[0].indent
    ensures Forest(PopWhile(stack, indent)) == Forest(stack)
    decreases |stack|
  {
    if stack[|stack| - 1].indent >= indent {
      assert |stack| >= 2;
      PopPreorder(stack);
      PopWhileAbove(Pop(stack), indent);
    }
  }

  /** The node of a line lists just that line. */
  lemma LeafPreorder(l: Line)
    ensures Preorder(Leaf(l)) == [l]
  {
  }

  /** When every later line is deeper than the first, the stack holds the first line at its bottom and the lines read so far in preorder. */
  lemma {:induction false} StackPreorder(group: seq<Line>)
    requires group != []
    requires forall k :: 0 < k < |group| ==> group[k].indent > group[0].indent
    ensures StackAfter(group)[0].indent == group[0].indent
    ensures Forest(StackAfter(group)) == group
  {
    var ls := group[..|group| - 1];
    var l := group[|group| - 1];
    if ls == [] {
      LeafPreorder(l);
      assert StackAfter(group) == [Leaf(l)];
      ForestSnoc([], Leaf(l));
    } else {
      assert ls[0] == group[0];
      forall k | 0 < k < |ls| ensures ls[k].indent > ls[0].indent { assert ls[k] == group[k]; }
      assert l.indent > group[0].indent;
      StackPreorder(ls);
      StackPreorderStep(group);
    }
  }

  /** The step of `StackPreorder`: a line deeper than the bottom of the stack adds itself to the preorder. */
  lemma StackPreorderStep(group: seq<Line>)
    requires |group| >= 2
    requires var ls := group[..|group| - 1];
      StackAfter(ls)[0].indent == group[0].indent < group[|group| - 1].indent && Forest(StackAfter(ls)) == ls
    ensures StackAfter(group)[0].indent == group[0].indent
    ensures Forest(StackAfter(group)) == group
  {
    PopWhileAbove(StackAfter(group[..|group| - 1]), group[|group| - 1].indent);
    PushForest(group);
    SnocSplit(group);
  }

  /** Reading one more line appends it to the preorder of the popped stack. */
  lemma PushForest(group: seq<Line>)
    requires group != []
    ensures var n := |group|;
      StackAfter(group) == PopWhile(StackAfter(group[..n - 1]), group[n - 1].indent) + [Leaf(group[n - 1])]
    ensures var n := |group|;
      Forest(StackAfter(group)) == Forest(PopWhile(StackAfter(group[..n - 1]), group[n - 1].indent)) + [group[n - 1]]
  {
    var n := |group|;
    var popped := PopWhile(StackAfter(group[..n - 1]), group[n - 1].indent);
    assert StackAfter(group) == popped + [Leaf(group[n - 1])];
    ForestSnoc(popped, Leaf(group[n - 1]));
    LeafPreorder(group[n - 1]);
  }

  lemma {:induction false} CloseAllPreorder(stack: seq<BlockGroup>)
    requires stack != []
    ensures Preorder(CloseAll(stack)) == Forest(stack)
    decreases |stack|
  {
    if |stack| == 1 {
      assert Forest(stack) == Forest([]) + Preorder(stack[0]);
    } else {
      PopPreorder(stack);
      CloseAllPreorder(Pop(stack));
    }
  }

  /** For a group whose first line is shallower than all the others, the tree lists the group's lines in preorder. */
  lemma PreorderIsGroup(group: seq<Line>)
    requires group != []
    requires forall k :: 0 < k < |group| ==> group[k].indent > group[0].indent
    ensures Preorder(Build(group)) == group
    ensures LineOf(Build(group)) == group[0]
  {
    StackPreorder(group);
    CloseAllPreorder(StackAfter(group));
  }

  /** Consecutive lines of equal indent under a shallower line become siblings, in order. */
  lemma Siblings(a: Line, b: Line, c: Line)
    requires a.indent < b.indent && b.indent == c.indent
    ensures Build([a, b, c]) == BlockGroup(a.kind, a.text, a.indent, [Leaf(b), Leaf(c)])
  {
    assert [a, b, c][..2] == [a, b] && [a, b][..1] == [a] && [a][..0] == [];
    assert StackAfter([a]) == [Leaf(a)];
    assert StackAfter([a, b]) == PopWhile([Leaf(a)], b.indent) + [Leaf(b)];
    assert StackAfter([a, b]) == [Leaf(a), Leaf(b)];
    var ab := AddChild(Leaf(a), Leaf(b));
    assert Pop([Leaf(a), Leaf(b)]) == [ab];
    assert PopWhile([Leaf(a), Leaf(b)], c.indent) == PopWhile([ab], c.indent) == [ab];
    assert StackAfter([a, b, c]) == [ab, Leaf(c)];
    assert Pop([ab, Leaf(c)]) == [AddChild(ab, Leaf(c))];
    assert CloseAll([ab, Leaf(c)]) == CloseAll([AddChild(ab, Leaf(c))]) == AddChild(ab, Leaf(c));
    assert AddChild(ab, Leaf(c)).children == [Leaf(b), Leaf(c)];
  }

  /**
   * When a later line is no deeper than every open node, the stack empties and that line
   * becomes the root: the tree built so far is no longer reachable from the result.
   */
  lemma ShallowerLineReplacesRoot(a: Line, b: Line)
    requires b.indent <= a.indent
    ensures Build([a, b]) == Leaf(b)
  {
    assert [a, b][..1] == [a];
    assert StackAfter([a]) == [Leaf(a)];
  }

  // ---- the parent rule ----

  /**
   * Attaches a line to a tree: it becomes the last child of the deepest node on the
   * tree's right edge that is indented less than it. For a line read after all the
   * tree's lines, that node is the nearest earlier line with a smaller indent.
   */
  function Attach(t: BlockGroup, l: Line): (r: BlockGroup)
    ensures LineOf(r) == LineOf(t)
    decreases t
  {
    var n := |t.children|;
    if n > 0 && t.children[n - 1].indent < l.indent then
      t.(children := t.children[..n - 1] + [Attach(t.children[n - 1], l)])
    else
      AddChild(t, Leaf(l))
  }

  /** The tree of a group built line by line with `Attach`, with no stack. */
  function Attached(group: seq<Line>): BlockGroup
    requires group != []
  {
    if |group| == 1 then Leaf(group[0]) else Attach(Attached(group[..|group| - 1]), group[|group| - 1])
  }

  /** Attaching a line adds it at the end of the tree's preorder. */
  lemma {:induction false} AttachPreorder(t: BlockGroup, l: Line)
    ensures Preorder(Attach(t, l)) == Preorder(t) + [l]
    decreases t
  {
    var n := |t.children|;
    if n > 0 && t.children[n - 1].indent < l.indent {
      var c := t.children;
      var a := Attach(c[n - 1], l);
      AttachPreorder(c[n - 1], l);
      ForestSnoc(c[..n - 1], a);
      assert c[..n - 1] + [c[n - 1]] == c;
      ForestSnoc(c[..n - 1], c[n - 1]);
      Assoc(Forest(c[..n - 1]), Preorder(c[n - 1]), [l]);
      Assoc([LineOf(t)], Forest(c), [l]);
    } else {
      AddChildPreorder(t, Leaf(l));
      LeafPreorder(l);
    }
  }

  /** The open nodes read as one tree: every node gets the node above it as its last child. */
  function Spine(stack: seq<BlockGroup>): BlockGroup
    requires stack != []
    decreases |stack|
  {
    if |stack| == 1 then stack[0] else AddChild(stack[0], Spine(stack[1..]))
  }

  lemma {:induction false} SpineSnoc(a: seq<BlockGroup>, x: BlockGroup, y: BlockGroup)
    ensures Spine(a + [AddChild(x, y)]) == Spine(a + [x, y])
    decreases |a|
  {
    if a != [] {
      assert (a + [AddChild(x, y)])[1..] == a[1..] + [AddChild(x, y)];
      assert (a + [x, y])[1..] == a[1..] + [x, y];
      SpineSnoc(a[1..], x, y);
    }
  }

  /** Closing the open nodes one by one gives their spine. */
  lemma {:induction false} CloseAllSpine(stack: seq<BlockGroup>)
    requires stack != []
    ensures CloseAll(stack) == Spine(stack)
    decreases |stack|
  {
    var n := |stack|;
    if n > 1 {
      CloseAllSpine(Pop(stack));
      SpineSnoc(stack[..n - 2], stack[n - 2], stack[n - 1]);
      assert stack[..n - 2] + [stack[n - 2], stack[n - 1]] == stack;
    }
  }

  /** Popping above a node shallower than the new line leaves that node in place. */
  lemma {:induction false} PopWhileCons(x: BlockGroup, rest: seq<BlockGroup>, indent: nat)
    requires rest != [] && rest[0].indent < indent
    ensures PopWhile([x] + rest, indent) == [x] + PopWhile(rest, indent)
    decreases |rest|
  {
    var s := [x] + rest;
    var m := |rest|;
    assert s[|s| - 1] == rest[m - 1];
    if rest[m - 1].indent >= indent {
      assert m >= 2;
      assert s[..|s| - 2] == [x] + rest[..m - 2];
      assert Pop(s) == [x] + Pop(rest);
      assert Pop(rest)[0].indent == rest[0].indent;
      PopWhileCons(x, Pop(rest), indent);
    }
  }

  /** When every node above the bottom is at least as deep as the new line, all of them are closed into the bottom. */
  lemma {:induction false} PopAllAbove(stack: seq<BlockGroup>, indent: nat)
    requires stack != [] && stack[0].indent < indent
    requires forall i :: 1 <= i < |stack| ==> stack[i].indent >= indent
    ensures PopWhile(stack, indent) == [CloseAll(stack)]
    decreases |stack|
  {
    var n := |stack|;
    if n > 1 {
      var p := Pop(stack);
      forall i | 1 <= i < |p| ensures p[i].indent >= indent {
        if i < n - 2 { assert p[i] == stack[i]; } else { assert p[i].indent == stack[n - 2].indent; }
      }
      assert p[0].indent == stack[0].indent;
      PopAllAbove(p, indent);
    }
  }

  lemma SpineCons(x: BlockGroup, rest: seq<BlockGroup>)
    requires rest != []
    ensures Spine([x] + rest) == AddChild(x, Spine(rest))
  {
    assert ([x] + rest)[1..] == rest;
  }

  lemma AttachLastChild(x: BlockGroup, child: BlockGroup, l: Line)
    requires child.indent < l.indent
    ensures Attach(AddChild(x, child), l) == AddChild(x, Attach(child, l))
  {
    assert AddChild(x, child).children[..|x.children|] == x.children;
  }

  /** The new line goes below the node above the bottom: the step happens inside the bottom's last child. */
  lemma SpineAttachInside(x: BlockGroup, rest: seq<BlockGroup>, l: Line)
    requires rest != [] && rest[0].indent < l.indent
    requires Spine(PopWhile(rest, l.indent) + [Leaf(l)]) == Attach(Spine(rest), l)
    ensures Spine(PopWhile([x] + rest, l.indent) + [Leaf(l)]) == Attach(Spine([x] + rest), l)
  {
    PopWhileCons(x, rest, l.indent);
    var popped := PopWhile(rest, l.indent);
    assert PopWhile([x] + rest, l.indent) + [Leaf(l)] == [x] + (popped + [Leaf(l)]);
    SpineCons(x, popped + [Leaf(l)]);
    SpineCons(x, rest);
    AttachLastChild(x, Spine(rest), l);
  }

  /** Every node above the bottom is at least as deep as the new line: all close, and the line joins the bottom. */
  lemma SpineAttachBeside(stack: seq<BlockGroup>, l: Line)
    requires |stack| >= 2 && stack[0].indent < l.indent
    requires forall i :: 1 <= i < |stack| ==> stack[i].indent >= l.indent
    ensures Spine(PopWhile(stack, l.indent) + [Leaf(l)]) == Attach(Spine(stack), l)
  {
    PopAllAbove(stack, l.indent);
    CloseAllSpine(stack);
    SpineCons(Spine(stack), [Leaf(l)]);
    SpineCons(stack[0], stack[1..]);
    assert [stack[0]] + stack[1..] == stack;
  }

  /** One stack step is one `Attach` on the spine of the open nodes. */
  lemma {:induction false} SpineAttach(stack: seq<BlockGroup>, l: Line)
    requires stack != [] && Increasing(stack) && stack[0].indent < l.indent
    requires stack[|stack| - 1].children == []
    ensures Spine(PopWhile(stack, l.indent) + [Leaf(l)]) == Attach(Spine(stack), l)
    decreases |stack|
  {
    if |stack| == 1 {
      assert PopWhile(stack, l.indent) == stack;
      SpineCons(stack[0], [Leaf(l)]);
    } else {
      var rest := stack[1..];
      assert stack == [stack[0]] + rest;
      if rest[0].indent < l.indent {
        assert Increasing(rest);
        SpineAttach(rest, l);
        SpineAttachInside(stack[0], rest, l);
      } else {
        forall i | 1 <= i < |stack| ensures stack[i].indent >= l.indent {
          assert stack[1].indent <= stack[i].indent;
        }
        SpineAttachBeside(stack, l);
      }
    }
  }

  /**
   * `_build_hierarchy` follows the parent rule: for a group whose later lines are all
   * deeper than its first, the tree is the one `Attach` builds, where every line becomes
   * the last child of the nearest earlier line indented less than it.
   */
  lemma {:induction false} BuildIsAttached(group: seq<Line>)
    requires group != []
    requires forall k :: 0 < k < |group| ==> group[k].indent > group[0].indent
    ensures Build(group) == Attached(group)
    decreases |group|
  {
    var n := |group|;
    if n == 1 {
      assert group[..0] == [];
      assert StackAfter(group) == [Leaf(group[0])];
    } else {
      var ls := group[..n - 1];
      var l := group[n - 1];
      assert ls[0] == group[0];
      forall k | 0 < k < |ls| ensures ls[k].indent > ls[0].indent { assert ls[k] == group[k]; }
      BuildIsAttached(ls);
      StackInvariant(ls);
      StackPreorder(ls);
      PushForest(ls);
      PushForest(group);
      SpineAttach(StackAfter(ls), l);
      CloseAllSpine(StackAfter(group));
      CloseAllSpine(StackAfter(ls));
    }
  }

  /** Lines of increasing indent form a chain, each the only child of the one before. */
  lemma Chain(a: Line, b: Line, c: Line)
    requires a.indent < b.indent < c.indent
    ensures Build([a, b, c]) == BlockGroup(a.kind, a.text, a.indent, [BlockGroup(b.kind, b.text, b.indent, [Leaf(c)])])
  {
    BuildIsAttached([a, b, c]);
    assert [a, b, c][..2] == [a, b] && [a, b][..1] == [a];
    assert Attached([a, b]) == Attach(Leaf(a), b) == AddChild(Leaf(a), Leaf(b));
    assert Attach(Leaf(b), c) == AddChild(Leaf(b), Leaf(c));
    var ab := AddChild(Leaf(a), Leaf(b));
    assert ab.children[..0] + [Attach(Leaf(b), c)] == [Attach(Leaf(b), c)];
    assert Attached([a, b, c]) == Attach(ab, c);
    assert Leaf(b).children + [Leaf(c)] == [Leaf(c)];
    assert AddChild(Leaf(b), Leaf(c)) == BlockGroup(b.kind, b.text, b.indent, [Leaf(c)]);
  }

  // ---- the loop ----

  /** `_build_hierarchy`: the source's stack loop, for a non-empty group. */
  method BuildHierarchy(group: seq<Line>) returns (root: BlockGroup)
    requires group != []
    ensures root == Build(group)
  {
    var stack: seq<BlockGroup> := [];
    for i := 0 to |group|
      invariant stack == StackAfter(group[..i])
    {
      assert group[..i + 1][..i] == group[..i];
      var line := group[i];
      ghost var before := stack;
      while stack != [] && stack[|stack| - 1].indent >= line.indent
        invariant PopWhile(stack, line.indent) == PopWhile(before, line.indent)
        decreases |stack|
      {
        var n := |stack|;
        if n == 1 {
          stack := [];
        } else {
          var parent := stack[n - 2];
          stack := stack[..n - 2] + [parent.(children := parent.children + [stack[n - 1]])];
        }
      }
      stack := stack + [BlockGroup(line.kind, line.text, line.indent, [])];
    }
    assert group[..|group|] == group;
    ghost var full := stack;
    while |stack| > 1
      invariant stack != [] && CloseAll(stack) == CloseAll(full)
      decreases |stack|
    {
      var n := |stack|;
      var parent := stack[n - 2];
      stack := stack[..n - 2] + [parent.(children := parent.children + [stack[n - 1]])];
    }
    root := stack[0];
  }
}

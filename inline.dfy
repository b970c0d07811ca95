/**
 * `Blocks._text_to_richtext` and `Blocks._markdownlink_to_rich_text`: a line of
 * text becomes a list of rich-text runs. Four span patterns are searched for
 * independently, the spans are stably sorted by their start, and the text
 * between spans becomes plain runs. Overlapping spans are not resolved.
 *
 * The four regular expressions are written out as direct scanners; their
 * character classes exclude their own terminators, so the lazy quantifiers
 * have exactly one way to match.
 */
module Inline {
  import opened Wrappers
  import opened Colors
  import opened PyStr
  import O = Objects
  import Factory
  import opened Seqs

  /** The four span patterns, in the order their matches are collected. */
  datatype Pattern = LinkPattern | CodePattern | MentionPattern | EquationPattern

  /** The position of a pattern in the collection order; the sort keeps this order among equal starts. */
  function Rank(p: Pattern): nat {
    match p
    case LinkPattern => 0
    case CodePattern => 1
    case MentionPattern => 2
    case EquationPattern => 3
  }

  /** A match: its pattern and its span `[start, end)`. */
  datatype Span = Span(pattern: Pattern, start: nat, end: nat)

  // ---- scanning ----

  /** Where a character class run stops: at one of some characters, or at whitespace or one character. */
  datatype Stop = AnyOf(cs: string) | SpaceOr(c: char)

  predicate Stops(st: Stop, c: char) {
    match st
    case AnyOf(cs) => c in cs
    case SpaceOr(d) => IsSpace(c) || c == d
  }

  /** The first position at or after `from` holding a stop character, or `|t|`. */
  function FirstStop(t: string, from: nat, st: Stop): (k: nat)
    requires from <= |t|
    ensures from <= k <= |t|
    ensures forall i :: from <= i < k ==> !Stops(st, t[i])
    ensures k < |t| ==> Stops(st, t[k])
    decreases |t| - from
  {
    if from == |t| || Stops(st, t[from]) then from else FirstStop(t, from + 1, st)
  }

  /** No `t[i]` with `lo <= i < hi` is a stop character. */
  predicate Clear(t: string, lo: nat, hi: nat, st: Stop)
    requires hi <= |t|
  {
    forall i :: lo <= i < hi ==> !Stops(st, t[i])
  }

  /** `\[([^\[\]]+?)\]\(([^\s\)]+?)\)` matches `t[p..e]`, its `]` at `q`. */
  predicate IsLink(t: string, p: nat, q: nat, e: nat) {
    && p + 1 < q && q + 3 < e <= |t|
    && t[p] == '[' && Clear(t, p + 1, q, AnyOf("[]")) && t[q] == ']'
    && t[q + 1] == '(' && Clear(t, q + 2, e - 1, SpaceOr(')')) && t[e - 1] == ')'
  }

  /** `\[([^\[\]:]+?):([^\[\]]+?)\]` matches `t[p..e]`, its `:` at `q`. */
  predicate IsMention(t: string, p: nat, q: nat, e: nat) {
    && p + 1 < q && q + 2 < e <= |t|
    && t[p] == '[' && Clear(t, p + 1, q, AnyOf("[]:")) && t[q] == ':'
    && Clear(t, q + 1, e - 1, AnyOf("[]")) && t[e - 1] == ']'
  }

  /**
   * `` `(.+?)` `` (for `d` a backquote) or `\$(.+?)\$` (for `d` a dollar) matches `t[p..e]`:
   * at least one character that is not a newline, and the closing delimiter is the first one
   * after that character.
   */
  predicate IsDelimited(t: string, d: char, p: nat, e: nat) {
    && p + 2 < e <= |t|
    && t[p] == d && t[p + 1] != '\n' && Clear(t, p + 2, e - 1, AnyOf([d, '\n'])) && t[e - 1] == d
  }

  /** The delimiter of the code and equation patterns. */
  function Delimiter(pat: Pattern): char {
    if pat == CodePattern then '`' else '$'
  }

  /** The end of the match of `pat` anchored at `p`, if there is one (`pattern.match(t, p)`). */
  function MatchEnd(t: string, pat: Pattern, p: nat): (r: Option<nat>)
    requires p < |t|
    ensures r.Some? ==> p < r.value <= |t|
  {
    match pat
    case LinkPattern =>
      if t[p] != '[' then None else
      var q := FirstStop(t, p + 1, AnyOf("[]"));
      if q == p + 1 || q + 1 >= |t| || t[q] != ']' || t[q + 1] != '(' then None else
      var r := FirstStop(t, q + 2, SpaceOr(')'));
      if r == q + 2 || r == |t| || t[r] != ')' then None else Some(r + 1)
    case MentionPattern =>
      if t[p] != '[' then None else
      var q := FirstStop(t, p + 1, AnyOf("[]:"));
      if q == p + 1 || q == |t| || t[q] != ':' then None else
      var r := FirstStop(t, q + 1, AnyOf("[]"));
      if r == q + 1 || r == |t| || t[r] != ']' then None else Some(r + 1)
    case _ =>
      var d := Delimiter(pat);
      if t[p] != d || p + 1 == |t| || t[p + 1] == '\n' then None else
      var r := FirstStop(t, p + 2, AnyOf([d, '\n']));
      if r == |t| || t[r] != d then None else Some(r + 1)
  }

  /** The text matched by `pat` at `p` up to `e`, as its regular expression states it. */
  predicate Matches(t: string, pat: Pattern, p: nat, e: nat) {
    match pat
    case LinkPattern => exists q :: p < q < e && IsLink(t, p, q, e)
    case MentionPattern => exists q :: p < q < e && IsMention(t, p, q, e)
    case _ => IsDelimited(t, Delimiter(pat), p, e)
  }

  /** Every match the scanner reports is a match of the pattern. */
  lemma MatchEndSound(t: string, pat: Pattern, p: nat)
    requires p < |t| && MatchEnd(t, pat, p).Some?
    ensures Matches(t, pat, p, MatchEnd(t, pat, p).value)
  {
    var e := MatchEnd(t, pat, p).value;
    match pat
    case LinkPattern =>
      var q := FirstStop(t, p + 1, AnyOf("[]"));
      assert IsLink(t, p, q, e);
    case MentionPattern =>
      var q := FirstStop(t, p + 1, AnyOf("[]:"));
      assert IsMention(t, p, q, e);
    case _ =>
  }

  lemma LinkEndComplete(t: string, p: nat, q: nat, e: nat)
    requires p < |t| && IsLink(t, p, q, e)
    ensures MatchEnd(t, LinkPattern, p) == Some(e)
  {
    assert FirstStop(t, p + 1, AnyOf("[]")) == q;
    assert FirstStop(t, q + 2, SpaceOr(')')) == e - 1;
  }

  lemma MentionEndComplete(t: string, p: nat, q: nat, e: nat)
    requires p < |t| && IsMention(t, p, q, e)
    ensures MatchEnd(t, MentionPattern, p) == Some(e)
  {
    assert FirstStop(t, p + 1, AnyOf("[]:")) == q;
    assert FirstStop(t, q + 1, AnyOf("[]")) == e - 1;
  }

  lemma DelimitedEndComplete(t: string, pat: Pattern, p: nat, e: nat)
    requires pat == CodePattern || pat == EquationPattern
    requires p < |t| && IsDelimited(t, Delimiter(pat), p, e)
    ensures MatchEnd(t, pat, p) == Some(e)
  {
    assert FirstStop(t, p + 2, AnyOf([Delimiter(pat), '\n'])) == e - 1;
  }

  /** The scanner finds every match of the pattern, with its one possible end. */
  lemma MatchEndComplete(t: string, pat: Pattern, p: nat, e: nat)
    requires p < |t| && Matches(t, pat, p, e)
    ensures MatchEnd(t, pat, p) == Some(e)
  {
    match pat
    case LinkPattern =>
      var q :| p < q < e && IsLink(t, p, q, e);
      LinkEndComplete(t, p, q, e);
    case MentionPattern =>
      var q :| p < q < e && IsMention(t, p, q, e);
      MentionEndComplete(t, p, q, e);
    case _ =>
      DelimitedEndComplete(t, pat, p, e);
  }

  /** `re.finditer(pat, t)` from position `pos`: after a match the search resumes at its end. */
  function FindAll(t: string, pat: Pattern, pos: nat): seq<Span>
    requires pos <= |t|
    decreases |t| - pos
  {
    if pos == |t| then []
    else
      match MatchEnd(t, pat, pos)
      case Some(e) => [Span(pat, pos, e)] + FindAll(t, pat, e)
      case None => FindAll(t, pat, pos + 1)
  }

  /** The search reports spans of its pattern, from `pos` on, within the text. */
  lemma {:induction false} FindAllBounds(t: string, pat: Pattern, pos: nat)
    requires pos <= |t|
    ensures forall i :: 0 <= i < |FindAll(t, pat, pos)| ==>
      FindAll(t, pat, pos)[i].pattern == pat && pos <= FindAll(t, pat, pos)[i].start < FindAll(t, pat, pos)[i].end <= |t|
    decreases |t| - pos
  {
    if pos < |t| {
      match MatchEnd(t, pat, pos)
      case Some(e) =>
        FindAllBounds(t, pat, e);
        var rest := FindAll(t, pat, e);
        assert FindAll(t, pat, pos) == [Span(pat, pos, e)] + rest;
      case None =>
        FindAllBounds(t, pat, pos + 1);
    }
  }

  /** Every span the search reports is a match of its pattern. */
  lemma {:induction false} FindAllSound(t: string, pat: Pattern, pos: nat)
    requires pos <= |t|
    ensures forall i :: 0 <= i < |FindAll(t, pat, pos)| ==>
      FindAll(t, pat, pos)[i].start < |t| && MatchEnd(t, pat, FindAll(t, pat, pos)[i].start) == Some(FindAll(t, pat, pos)[i].end)
    decreases |t| - pos
  {
    if pos < |t| {
      match MatchEnd(t, pat, pos)
      case Some(e) =>
        FindAllSound(t, pat, e);
        var rest := FindAll(t, pat, e);
        assert FindAll(t, pat, pos) == [Span(pat, pos, e)] + rest;
      case None =>
        FindAllSound(t, pat, pos + 1);
    }
  }

  /** The search resumes after each match, so the matches come in order and do not overlap. */
  lemma {:induction false} FindAllDisjoint(t: string, pat: Pattern, pos: nat)
    requires pos <= |t|
    ensures forall i, j :: 0 <= i < j < |FindAll(t, pat, pos)| ==> FindAll(t, pat, pos)[i].end <= FindAll(t, pat, pos)[j].start
    decreases |t| - pos
  {
    if pos < |t| {
      match MatchEnd(t, pat, pos)
      case Some(e) =>
        FindAllBounds(t, pat, e);
        FindAllDisjoint(t, pat, e);
        var rest := FindAll(t, pat, e);
        var r := [Span(pat, pos, e)] + rest;
        assert FindAll(t, pat, pos) == r;
        forall i, j | 0 <= i < j < |r| ensures r[i].end <= r[j].start {
          assert r[j] == rest[j - 1];
          if i > 0 { assert r[i] == rest[i - 1]; }
        }
      case None =>
        FindAllDisjoint(t, pat, pos + 1);
        assert FindAll(t, pat, pos) == FindAll(t, pat, pos + 1);
    }
  }

  /** The search finds nothing exactly when the pattern matches at no position from `pos` on. */
  lemma {:induction false} FindAllEmpty(t: string, pat: Pattern, pos: nat)
    requires pos <= |t|
    ensures FindAll(t, pat, pos) == [] <==> forall p :: pos <= p < |t| ==> MatchEnd(t, pat, p).None?
    decreases |t| - pos
  {
    if pos < |t| {
      FindAllEmpty(t, pat, pos + 1);
    }
  }

  /** The matches of all four patterns, in the order the source collects them. */
  function Collect(t: string): seq<Span> {
    FindAll(t, LinkPattern, 0) + FindAll(t, CodePattern, 0) + FindAll(t, MentionPattern, 0)
    + FindAll(t, EquationPattern, 0)
  }

  /** One `for m in re.finditer(...): matches.append((name, m.start(), m.end()))` loop. */
  method AppendFound(matches: seq<Span>, found: seq<Span>) returns (r: seq<Span>)
    ensures r == matches + found
  {
    r := matches;
    for i := 0 to |found|
      invariant r == matches + found[..i]
    {
      assert found[..i + 1] == found[..i] + [found[i]];
      r := r + [found[i]];
    }
    assert found[..|found|] == found;
  }

  /** The four collection loops of `_text_to_richtext`: links, inline code, page mentions, inline equations. */
  method CollectMatches(text: string) returns (matches: seq<Span>)
    ensures matches == Collect(text)
  {
    matches := [];
    matches := AppendFound(matches, FindAll(text, LinkPattern, 0));
    matches := AppendFound(matches, FindAll(text, CodePattern, 0));
    matches := AppendFound(matches, FindAll(text, MentionPattern, 0));
    matches := AppendFound(matches, FindAll(text, EquationPattern, 0));
  }

  // ---- the stable sort by start ----

  /**
   * Inserts `x` after every span that starts no later than it. `InsertPermutes` and
   * `InsertOrdered` prove that the result is a permutation and stays ordered by start.
   */
  function Insert(s: seq<Span>, x: Span): (r: seq<Span>)
    ensures |r| == |s| + 1
  {
    if s == [] || s[|s| - 1].start <= x.start then s + [x]
    else Insert(s[..|s| - 1], x) + [s[|s| - 1]]
  }

  /**
   * `sorted(matches, key=lambda x: x[1])`: a stable sort by start (insertion sort).
   * `SortPermutes` and `SortOrdered` prove that it is a permutation ordered by start.
   */
  function SortByStart(xs: seq<Span>): (r: seq<Span>)
    ensures |r| == |xs|
  {
    if xs == [] then [] else Insert(SortByStart(xs[..|xs| - 1]), xs[|xs| - 1])
  }

  /** Inserting adds `x` and loses nothing. */
  lemma {:induction false} InsertPermutes(s: seq<Span>, x: Span)
    ensures multiset(Insert(s, x)) == multiset(s) + multiset{x}
  {
    if !(s == [] || s[|s| - 1].start <= x.start) {
      assert s == s[..|s| - 1] + [s[|s| - 1]];
      InsertPermutes(s[..|s| - 1], x);
    }
  }

  /** The sort is a permutation. */
  lemma {:induction false} SortPermutes(xs: seq<Span>)
    ensures multiset(SortByStart(xs)) == multiset(xs)
  {
    if xs != [] {
      assert xs == xs[..|xs| - 1] + [xs[|xs| - 1]];
      SortPermutes(xs[..|xs| - 1]);
      InsertPermutes(SortByStart(xs[..|xs| - 1]), xs[|xs| - 1]);
    }
  }

  /** `a` comes before `b`: it starts earlier, or at the same place and was collected by an earlier pattern. */
  predicate Before(a: Span, b: Span) {
    a.start < b.start || (a.start == b.start && Rank(a.pattern) < Rank(b.pattern))
  }

  predicate StrictlyOrdered(r: seq<Span>) {
    forall i, j :: 0 <= i < j < |r| ==> Before(r[i], r[j])
  }

  /** Spans with the same start appear in increasing pattern rank. */
  predicate TieOrdered(xs: seq<Span>) {
    forall i, j :: 0 <= i < j < |xs| && xs[i].start == xs[j].start ==> Rank(xs[i].pattern) < Rank(xs[j].pattern)
  }

  lemma {:induction false} InsertOrdered(s: seq<Span>, x: Span)
    requires StrictlyOrdered(s)
    requires forall y :: y in s && y.start == x.start ==> Rank(y.pattern) < Rank(x.pattern)
    ensures StrictlyOrdered(Insert(s, x))
  {
    if s == [] || s[|s| - 1].start <= x.start {
      var r := s + [x];
      forall i, j | 0 <= i < j < |r| ensures Before(r[i], r[j]) {
        if j < |s| {
          assert r[i] == s[i] && r[j] == s[j];
        } else {
          assert r[i] == s[i] && r[i] in s;
          assert s[i].start <= s[|s| - 1].start by {
            if i < |s| - 1 { assert Before(s[i], s[|s| - 1]); }
          }
        }
      }
    } else {
      var init := s[..|s| - 1];
      var last := s[|s| - 1];
      assert StrictlyOrdered(init) by {
        forall i, j | 0 <= i < j < |init| ensures Before(init[i], init[j]) { assert init[i] == s[i] && init[j] == s[j]; }
      }
      forall y | y in init && y.start == x.start ensures Rank(y.pattern) < Rank(x.pattern) { assert y in s; }
      InsertOrdered(init, x);
      var m := Insert(init, x);
      InsertPermutes(init, x);
      var r := m + [last];
      forall i, j | 0 <= i < j < |r| ensures Before(r[i], r[j]) {
        if j < |m| {
          assert r[i] == m[i] && r[j] == m[j];
        } else {
          assert r[i] == m[i] && m[i] in multiset(m);
          assert m[i] in init || m[i] == x;
          if m[i] in init {
            var k :| 0 <= k < |init| && init[k] == m[i];
            assert Before(s[k], s[|s| - 1]);
          }
        }
      }
    }
  }

  /** Sorting spans whose ties are already in rank order gives them in (start, rank) order. */
  lemma {:induction false} SortOrdered(xs: seq<Span>)
    requires TieOrdered(xs)
    ensures StrictlyOrdered(SortByStart(xs))
  {
    if xs != [] {
      var init := xs[..|xs| - 1];
      var x := xs[|xs| - 1];
      assert TieOrdered(init) by {
        forall i, j | 0 <= i < j < |init| && init[i].start == init[j].start
          ensures Rank(init[i].pattern) < Rank(init[j].pattern) { assert init[i] == xs[i] && init[j] == xs[j]; }
      }
      SortOrdered(init);
      SortPermutes(init);
      forall y | y in SortByStart(init) && y.start == x.start ensures Rank(y.pattern) < Rank(x.pattern) {
        assert y in multiset(SortByStart(init));
        var k :| 0 <= k < |init| && init[k] == y;
        assert xs[k] == y;
      }
      InsertOrdered(SortByStart(init), x);
    }
  }

  /** One pattern's matches start at strictly increasing positions. */
  lemma FindAllTieOrdered(t: string, pat: Pattern)
    ensures TieOrdered(FindAll(t, pat, 0))
  {
    FindAllBounds(t, pat, 0);
    FindAllDisjoint(t, pat, 0);
  }

  /** Appending spans of higher rank keeps ties in rank order. */
  lemma TieOrderedAppend(xs: seq<Span>, ys: seq<Span>)
    requires TieOrdered(xs) && TieOrdered(ys)
    requires forall i, j :: 0 <= i < |xs| && 0 <= j < |ys| ==> Rank(xs[i].pattern) < Rank(ys[j].pattern)
    ensures TieOrdered(xs + ys)
  {
    var r := xs + ys;
    forall i, j | 0 <= i < j < |r| && r[i].start == r[j].start ensures Rank(r[i].pattern) < Rank(r[j].pattern) {
      if j < |xs| { assert r[i] == xs[i] && r[j] == xs[j]; }
      else if i >= |xs| { assert r[i] == ys[i - |xs|] && r[j] == ys[j - |xs|]; }
      else { assert r[i] == xs[i] && r[j] == ys[j - |xs|]; }
    }
  }

  /** The collected matches have their ties in rank order: links, then code, then mentions, then equations. */
  lemma CollectTieOrdered(t: string)
    ensures TieOrdered(Collect(t))
  {
    var l := FindAll(t, LinkPattern, 0);
    var c := FindAll(t, CodePattern, 0);
    var m := FindAll(t, MentionPattern, 0);
    var e := FindAll(t, EquationPattern, 0);
    FindAllBounds(t, LinkPattern, 0);
    FindAllBounds(t, CodePattern, 0);
    FindAllBounds(t, MentionPattern, 0);
    FindAllBounds(t, EquationPattern, 0);
    FindAllTieOrdered(t, LinkPattern);
    FindAllTieOrdered(t, CodePattern);
    FindAllTieOrdered(t, MentionPattern);
    FindAllTieOrdered(t, EquationPattern);
    TieOrderedAppend(l, c);
    assert forall i :: 0 <= i < |l + c| ==> Rank((l + c)[i].pattern) <= 1;
    TieOrderedAppend(l + c, m);
    assert forall i :: 0 <= i < |l + c + m| ==> Rank((l + c + m)[i].pattern) <= 2;
    TieOrderedAppend(l + c + m, e);
  }

  /** The matches, sorted: `sorted(matches, key=lambda x: x[1])`. */
  function Sorted(t: string): seq<Span> {
    SortByStart(Collect(t))
  }

  /** The sorted matches are exactly the collected ones, ordered by start and, among equal starts, by pattern. */
  lemma SortedMatches(t: string)
    ensures multiset(Sorted(t)) == multiset(Collect(t))
    ensures forall i, j :: 0 <= i < j < |Sorted(t)| ==> Before(Sorted(t)[i], Sorted(t)[j])
  {
    CollectTieOrdered(t);
    SortOrdered(Collect(t));
    SortPermutes(Collect(t));
  }

  // ---- markdown links ----

  /** `link` is one whole match of the link pattern, its `]` at `q`. */
  predicate IsLinkText(link: string) {
    exists q :: 0 < q < |link| && IsLink(link, 0, q, |link|)
  }

  /** The position of the `]` closing a link's text. */
  function LabelEnd(link: string): (q: nat)
    requires IsLinkText(link)
    ensures 0 < q && q + 3 < |link| && IsLink(link, 0, q, |link|)
  {
    var q :| 0 < q < |link| && IsLink(link, 0, q, |link|);
    assert link[q] == ']' && ']' !in link[..q] by {
      forall i | 0 <= i < q ensures link[i] != ']' {
        if i > 0 { assert !Stops(AnyOf("[]"), link[i]); }
      }
    }
    IndexOfFirst(link, ']', q);
    IndexOf(link, ']')
  }

  /** The link's text, the pattern's first group. */
  function LinkLabel(link: string): string
    requires IsLinkText(link)
  {
    link[1..LabelEnd(link)]
  }

  /** The link's URL, the pattern's second group. */
  function LinkTarget(link: string): string
    requires IsLinkText(link)
  {
    link[LabelEnd(link) + 2..|link| - 1]
  }

  /** The two groups of a link match are the label and the target, whichever witness is taken. */
  lemma LinkGroups(link: string, q: nat)
    requires 0 < q < |link| && IsLink(link, 0, q, |link|)
    ensures LinkLabel(link) == link[1..q] && LinkTarget(link) == link[q + 2..|link| - 1]
  {
  }

  /**
   * `_markdownlink_to_rich_text` as written: the text is cut out between the first `[` and the
   * next `]`, the URL between the first `(` of the whole match and the next `)`.
   */
  function MarkdownLinkAsWritten(link: string): (r: (string, string))
    requires '[' in link && '(' in link
  {
    SplitAtFirst(link, '[');
    SplitAtFirst(link, '(');
    (Split(Split(link, '[')[1], ']')[0], Split(Split(link, '(')[1], ')')[0])
  }

  /** `_markdownlink_to_rich_text` with the URL taken from the pattern's own group. */
  function MarkdownLink(link: string): (r: (string, string))
    requires IsLinkText(link)
    ensures r == (LinkLabel(link), LinkTarget(link))
  {
    (LinkLabel(link), LinkTarget(link))
  }

  /** No character that opens or closes a part of a link, and no whitespace. */
  predicate Plain(s: string) {
    forall i :: 0 <= i < |s| ==> s[i] != '[' && s[i] != ']' && s[i] != '(' && s[i] != ')' && !IsSpace(s[i])
  }

  /** The link `[a(b](u)`, for plain `a`, `b`, `u`. */
  function ParenLink(a: string, b: string, u: string): string {
    "[" + a + "(" + b + "](" + u + ")"
  }

  lemma ParenLinkGroups(a: string, b: string, u: string)
    requires Plain(a) && Plain(b) && Plain(u) && a != [] && u != []
    ensures IsLinkText(ParenLink(a, b, u))
    ensures LinkLabel(ParenLink(a, b, u)) == a + "(" + b && LinkTarget(ParenLink(a, b, u)) == u
  {
    var link := ParenLink(a, b, u);
    var q := |a| + |b| + 2;
    var n := |link|;
    assert n == q + |u| + 3;
    assert link[0] == '[' && link[q] == ']' && link[q + 1] == '(' && link[n - 1] == ')';
    assert Clear(link, 1, q, AnyOf("[]")) by {
      forall i | 1 <= i < q ensures !Stops(AnyOf("[]"), link[i]) {
        if i <= |a| { assert link[i] == a[i - 1]; }
        else if i > |a| + 1 { assert link[i] == b[i - |a| - 2]; }
      }
    }
    assert Clear(link, q + 2, n - 1, SpaceOr(')')) by {
      forall i | q + 2 <= i < n - 1 ensures !Stops(SpaceOr(')'), link[i]) { assert link[i] == u[i - q - 2]; }
    }
    assert IsLink(link, 0, q, n);
    LinkGroups(link, q);
    assert link[1..q] == a + "(" + b;
    assert link[q + 2..n - 1] == u;
  }

  lemma ParenLinkSplit(a: string, b: string, u: string)
    requires Plain(a) && Plain(b) && Plain(u)
    ensures |Split(ParenLink(a, b, u), '(')| >= 2 && Split(ParenLink(a, b, u), '(')[1] == b + "]"
  {
    var link := ParenLink(a, b, u);
    var k := |a| + 1;
    assert link[k] == '(';
    assert '(' !in link[..k] by {
      forall i | 0 <= i < k ensures link[i] != '(' { if i > 0 { assert link[i] == a[i - 1]; } }
    }
    var piece := link[k + 1..k + 1 + |b| + 1];
    assert piece == b + "]";
    assert '(' !in piece by {
      forall i | 0 <= i < |piece| ensures piece[i] != '(' { if i < |b| { assert piece[i] == b[i]; } }
    }
    assert link[k + 1 + |b| + 1] == '(';
    SplitSecond(link, '(', k, |b| + 1);
  }

  lemma NoCloseParen(b: string)
    requires Plain(b)
    ensures Split(b + "]", ')')[0] == b + "]"
  {
    var piece := b + "]";
    assert ')' !in piece by {
      forall i | 0 <= i < |piece| ensures piece[i] != ')' { if i < |b| { assert piece[i] == b[i]; } }
    }
    SplitHead(piece, ')', |piece|);
    assert piece[..|piece|] == piece;
  }

  lemma ParenLinkAsWritten(a: string, b: string, u: string)
    requires Plain(a) && Plain(b) && Plain(u)
    ensures '[' in ParenLink(a, b, u) && '(' in ParenLink(a, b, u)
    ensures MarkdownLinkAsWritten(ParenLink(a, b, u)).1 == b + "]"
  {
    var link := ParenLink(a, b, u);
    assert link[0] == '[' && link[|a| + 1] == '(';
    ParenLinkSplit(a, b, u);
    NoCloseParen(b);
  }

  /**
   * A link whose text holds a `(` gets a wrong URL from the code as written: for
   * `[a(b](u)` it is `b]`, where the link's own URL is `u`.
   */
  lemma ParenInLabelBreaksUrl(a: string, b: string, u: string)
    requires Plain(a) && Plain(b) && Plain(u) && a != [] && u != []
    ensures IsLinkText(ParenLink(a, b, u)) && LinkTarget(ParenLink(a, b, u)) == u
    ensures MarkdownLinkAsWritten(ParenLink(a, b, u)).1 == b + "]" != u
  {
    ParenLinkGroups(a, b, u);
    ParenLinkAsWritten(a, b, u);
    assert (b + "]")[|b|] == ']';
    assert ']' in b + "]";
  }

  /** The code as written always cuts out the link's own text. */
  lemma LabelAsWritten(link: string)
    requires IsLinkText(link)
    ensures '[' in link && ('(' in link ==> MarkdownLinkAsWritten(link).0 == LinkLabel(link))
  {
    LabelPiece(link);
  }

  /** The text the code as written cuts out: the second `[`-piece up to its first `]`. */
  lemma LabelPiece(link: string)
    requires IsLinkText(link)
    ensures '[' in link && |Split(link, '[')| >= 2 && Split(Split(link, '[')[1], ']')[0] == LinkLabel(link)
  {
    var q := LabelEnd(link);
    var f := FirstStop(link, 1, AnyOf("["));
    forall i | 1 <= i < q ensures link[i] != '[' && link[i] != ']' {
      assert !Stops(AnyOf("[]"), link[i]);
    }
    forall i | 1 <= i < f ensures link[i] != '[' {
      assert !Stops(AnyOf("["), link[i]);
    }
    assert f < |link| ==> link[f] == '[' by {
      if f < |link| { assert Stops(AnyOf("["), link[f]); }
    }
    LabelBetween(link, q, f);
  }

  /** The label split, for a `]` at `q` and the next `[` after the opening one at `f`. */
  lemma LabelBetween(link: string, q: nat, f: nat)
    requires 0 < q < f <= |link| || 0 < q < |link| <= f
    requires f <= |link| && link[0] == '[' && link[q] == ']'
    requires forall i :: 1 <= i < q ==> link[i] != '[' && link[i] != ']'
    requires forall i :: 1 <= i < f ==> link[i] != '['
    requires f < |link| ==> link[f] == '['
    ensures '[' in link && |Split(link, '[')| >= 2 && Split(Split(link, '[')[1], ']')[0] == link[1..q]
  {
    assert q < f;
    SecondPiece(link, '[', f);
    var piece := link[1..f];
    forall i | 0 <= i < q - 1 ensures piece[i] != ']' {
      assert piece[i] == link[i + 1];
    }
    assert piece[q - 1] == ']';
    FirstPiece(piece, ']', q - 1);
    assert piece[..q - 1] == link[1..q];
  }

  /** Without a `(` in its text or URL, the code as written cuts out the link's own URL. */
  lemma TargetAsWritten(link: string)
    requires IsLinkText(link) && '(' !in LinkLabel(link) && '(' !in LinkTarget(link)
    ensures '(' in link && MarkdownLinkAsWritten(link).1 == LinkTarget(link)
  {
    var q := LabelEnd(link);
    var n := |link|;
    var target := LinkTarget(link);
    assert '(' !in link[..q + 1] by {
      forall i | 0 <= i < q + 1 ensures link[i] != '(' {
        if 0 < i < q { assert link[i] == LinkLabel(link)[i - 1]; }
      }
    }
    var tail := link[q + 2..n];
    assert tail == target + [')'];
    assert '(' !in tail by {
      forall i | 0 <= i < |tail| ensures tail[i] != '(' {
        if i < |target| { assert tail[i] == target[i]; }
      }
    }
    SplitSecond(link, '(', q + 1, n - q - 2);
    assert ')' !in target by {
      forall i | 0 <= i < |target| ensures target[i] != ')' {
        assert target[i] == link[q + 2 + i];
        assert !Stops(SpaceOr(')'), link[q + 2 + i]);
      }
    }
    SplitHead(target + [')'], ')', |target|);
    assert (target + [')'])[..|target|] == target;
  }

  /** Without a `(` in its text or URL, the code as written and the corrected link agree. */
  lemma LinkAsWrittenAgrees(link: string)
    requires IsLinkText(link) && '(' !in LinkLabel(link) && '(' !in LinkTarget(link)
    ensures '[' in link && '(' in link
    ensures MarkdownLinkAsWritten(link) == MarkdownLink(link)
  {
    LabelAsWritten(link);
    TargetAsWritten(link);
  }

  // ---- emitting the runs ----

  /** A match reported by the scanner of its pattern. */
  predicate ValidSpan(t: string, sp: Span) {
    sp.start < |t| && MatchEnd(t, sp.pattern, sp.start) == Some(sp.end)
  }

  predicate AllValid(t: string, ms: seq<Span>) {
    forall i :: 0 <= i < |ms| ==> ValidSpan(t, ms[i])
  }

  /** A span one search reports is a match. */
  lemma FoundIsValid(t: string, pat: Pattern, x: Span)
    requires x in FindAll(t, pat, 0)
    ensures ValidSpan(t, x)
  {
    FindAllSound(t, pat, 0);
    FindAllBounds(t, pat, 0);
    var k :| 0 <= k < |FindAll(t, pat, 0)| && FindAll(t, pat, 0)[k] == x;
  }

  /** A collected span is a match. */
  lemma CollectedIsValid(t: string, x: Span)
    requires x in Collect(t)
    ensures ValidSpan(t, x)
  {
    var l := FindAll(t, LinkPattern, 0);
    var cd := FindAll(t, CodePattern, 0);
    var m := FindAll(t, MentionPattern, 0);
    var e := FindAll(t, EquationPattern, 0);
    assert x in l || x in cd || x in m || x in e;
    if x in l { FoundIsValid(t, LinkPattern, x); }
    else if x in cd { FoundIsValid(t, CodePattern, x); }
    else if x in m { FoundIsValid(t, MentionPattern, x); }
    else { FoundIsValid(t, EquationPattern, x); }
  }

  /** Every sorted match is one the scanners reported. */
  lemma SortedValid(t: string)
    ensures AllValid(t, Sorted(t))
  {
    SortPermutes(Collect(t));
    forall i | 0 <= i < |Sorted(t)| ensures ValidSpan(t, Sorted(t)[i]) {
      var x := Sorted(t)[i];
      assert x in multiset(Sorted(t));
      CollectedIsValid(t, x);
    }
  }

  /** A link match, cut out of the text, is a whole link. */
  lemma LinkSegment(t: string, sp: Span)
    requires ValidSpan(t, sp) && sp.pattern == LinkPattern
    ensures IsLinkText(t[sp.start..sp.end])
  {
    MatchEndSound(t, LinkPattern, sp.start);
    var q :| sp.start < q < sp.end && IsLink(t, sp.start, q, sp.end);
    LinkShift(t, sp.start, q, sp.end);
  }

  /** A link found at `p` is still a link once cut out of the text. */
  lemma LinkShift(t: string, p: nat, q: nat, e: nat)
    requires IsLink(t, p, q, e)
    ensures IsLink(t[p..e], 0, q - p, e - p)
  {
    var seg := t[p..e];
    forall i | 1 <= i < q - p ensures !Stops(AnyOf("[]"), seg[i]) {
      assert seg[i] == t[p + i];
    }
    forall i | q - p + 2 <= i < |seg| - 1 ensures !Stops(SpaceOr(')'), seg[i]) {
      assert seg[i] == t[p + i];
    }
    assert seg[0] == t[p] && seg[q - p] == t[q] && seg[q - p + 1] == t[q + 1] && seg[|seg| - 1] == t[e - 1];
  }

  /** A mention match holds a `:`. */
  lemma MentionSegment(t: string, sp: Span)
    requires ValidSpan(t, sp) && sp.pattern == MentionPattern
    ensures ':' in t[sp.start..sp.end]
  {
    MatchEndSound(t, MentionPattern, sp.start);
    var q :| sp.start < q < sp.end && IsMention(t, sp.start, q, sp.end);
    assert t[sp.start..sp.end][q - sp.start] == ':';
  }

  /** What cutting a match out of the text and reading its parts needs: a `:` in a mention, a whole link in a link. */
  predicate Cut(t: string, sp: Span) {
    && sp.start <= sp.end <= |t|
    && (sp.pattern == MentionPattern ==> ':' in t[sp.start..sp.end])
    && (sp.pattern == LinkPattern ==> IsLinkText(t[sp.start..sp.end]))
  }

  predicate AllCut(t: string, ms: seq<Span>) {
    forall i :: 0 <= i < |ms| ==> Cut(t, ms[i])
  }

  /** Every reported match can be cut out and read. */
  lemma ValidIsCut(t: string, sp: Span)
    requires ValidSpan(t, sp)
    ensures Cut(t, sp)
  {
    if sp.pattern == MentionPattern { MentionSegment(t, sp); }
    if sp.pattern == LinkPattern { LinkSegment(t, sp); }
  }

  lemma SortedCut(t: string)
    ensures AllCut(t, Sorted(t))
  {
    SortedValid(t);
    forall i | 0 <= i < |Sorted(t)| ensures Cut(t, Sorted(t)[i]) { ValidIsCut(t, Sorted(t)[i]); }
  }

  /** What a run of `_text_to_richtext` holds, before it becomes a rich-text object. */
  datatype Piece =
    | PlainPiece(text: string)
    | CodePiece(code: string)
    | MentionPiece(pageId: string)
    | EquationPiece(expression: string)
    | LinkPiece(linkText: string, url: string)

  /**
   * The typed run of a match: code and equations lose their delimiters (`strip`), a mention
   * keeps what follows its first `:` up to the next one (`split(":")[1].strip("]")`), and a
   * link keeps its text and its URL.
   */
  function Typed(t: string, sp: Span): (r: Piece)
    requires Cut(t, sp)
    ensures !r.PlainPiece?
  {
    var seg := t[sp.start..sp.end];
    match sp.pattern
    case CodePattern => CodePiece(Strip(seg, OneOf("`")))
    case EquationPattern => EquationPiece(Strip(seg, OneOf("$")))
    case MentionPattern =>
      SplitAtFirst(seg, ':');
      MentionPiece(Strip(Split(seg, ':')[1], OneOf("]")))
    case LinkPattern =>
      var link := MarkdownLink(seg);
      LinkPiece(link.0, link.1)
  }

  /** The typed runs of the matches, one per match. */
  function TypedRuns(t: string, ms: seq<Span>): (ts: seq<Piece>)
    requires AllCut(t, ms)
    ensures |ts| == |ms|
  {
    seq(|ms|, i requires 0 <= i < |ms| => Typed(t, ms[i]))
  }

  /** The plain run before match `i`: before the first match if it does not start the text, otherwise between two matches that do not touch. */
  function Gap(t: string, ms: seq<Span>, i: nat): seq<Piece>
    requires i < |ms|
  {
    if i == 0 then (if ms[0].start != 0 then [PlainPiece(Slice(t, 0, ms[0].start))] else [])
    else if ms[i - 1].end != ms[i].start then [PlainPiece(Slice(t, ms[i - 1].end, ms[i].start))]
    else []
  }

  /**
   * The runs of the first `k` matches, each typed run `ts[i]` preceded by its gap.
   * `EmittedPrefix`, `LayoutAt` and `TypedRunPosition` say where each run lands.
   */
  function Emitted(t: string, ms: seq<Span>, ts: seq<Piece>, k: nat): (r: seq<Piece>)
    requires k <= |ms| == |ts|
    ensures |r| >= k
  {
    if k == 0 then [] else Emitted(t, ms, ts, k - 1) + Gap(t, ms, k - 1) + [ts[k - 1]]
  }

  /**
   * The runs for the matches `ms` with typed runs `ts`: for no match the whole text, otherwise
   * the runs of the matches and the rest of the text after the last one.
   */
  function Layout(t: string, ms: seq<Span>, ts: seq<Piece>): seq<Piece>
    requires |ms| == |ts|
  {
    if ms == [] then [PlainPiece(t)]
    else Emitted(t, ms, ts, |ms|) + [PlainPiece(Slice(t, ms[|ms| - 1].end, |t|))]
  }

  /** The runs of `_text_to_richtext`, for the sorted matches and their typed runs. */
  function Pieces(t: string): seq<Piece> {
    SortedCut(t);
    Layout(t, Sorted(t), TypedRuns(t, Sorted(t)))
  }

  /** The rich-text object of a run. */
  function RunOf(p: Piece): O.RichText {
    match p
    case PlainPiece(s) => Factory.TextRun(s)
    case CodePiece(s) => Factory.TextRun(s, code := true, color := Some(Red))
    case MentionPiece(id) => Factory.PageMentionRun(id)
    case EquationPiece(e) => Factory.EquationRun(e)
    case LinkPiece(linkText, url) => Factory.TextRun(linkText, link := Some(url))
  }

  function RunsOf(ps: seq<Piece>): (r: seq<O.RichText>)
    ensures |r| == |ps|
  {
    seq(|ps|, i requires 0 <= i < |ps| => RunOf(ps[i]))
  }

  lemma RunsOfAppend(a: seq<Piece>, b: seq<Piece>)
    ensures RunsOf(a + b) == RunsOf(a) + RunsOf(b)
  {
    assert forall i :: 0 <= i < |a + b| ==> RunsOf(a + b)[i] == (RunsOf(a) + RunsOf(b))[i];
  }

  /** `_text_to_richtext(text)`. */
  function Tokenize(t: string): seq<O.RichText> {
    RunsOf(Pieces(t))
  }

  // ---- what the runs are ----

  /** The runs of fewer matches are a prefix of the runs of more. */
  lemma EmittedPrefix(t: string, ms: seq<Span>, ts: seq<Piece>, j: nat, k: nat)
    requires j <= k <= |ms| == |ts|
    ensures |Emitted(t, ms, ts, j)| <= |Emitted(t, ms, ts, k)|
    ensures Emitted(t, ms, ts, k)[..|Emitted(t, ms, ts, j)|] == Emitted(t, ms, ts, j)
  {
    var a := Emitted(t, ms, ts, j);
    var i := j;
    while i < k
      invariant j <= i <= k
      invariant |a| <= |Emitted(t, ms, ts, i)| && Emitted(t, ms, ts, i)[..|a|] == a
    {
      EmittedNext(t, ms, ts, i);
      PrefixSnoc(a, Emitted(t, ms, ts, i), Gap(t, ms, i), ts[i], Emitted(t, ms, ts, i + 1));
      i := i + 1;
    }
  }

  /** With no match, the text is one plain run; with any, there are at least two runs. */
  lemma NoMatchOneRun(t: string)
    ensures Collect(t) == [] <==> |Pieces(t)| == 1
    ensures Collect(t) == [] ==> Pieces(t) == [PlainPiece(t)]
  {
    SortedMatches(t);
    assert Collect(t) == [] <==> Sorted(t) == [] by {
      assert |Sorted(t)| == |multiset(Sorted(t))| == |multiset(Collect(t))| == |Collect(t)|;
    }
  }

  /** The runs of the first `k` matches open the list of runs. */
  lemma LayoutAt(t: string, ms: seq<Span>, ts: seq<Piece>, k: nat, j: nat)
    requires |ms| == |ts| && 0 < k <= |ms| && j < |Emitted(t, ms, ts, k)|
    ensures |Emitted(t, ms, ts, k)| < |Layout(t, ms, ts)|
    ensures Layout(t, ms, ts)[j] == Emitted(t, ms, ts, k)[j]
  {
    EmittedPrefix(t, ms, ts, k, |ms|);
    var all := Emitted(t, ms, ts, |ms|);
    assert Layout(t, ms, ts) == all + [PlainPiece(Slice(t, ms[|ms| - 1].end, |t|))];
    assert all[j] == all[..|Emitted(t, ms, ts, k)|][j];
  }

  /** The typed run `ts[i]` of match `i` closes the runs of the first `i + 1` matches. */
  lemma TypedRunPosition(t: string, ms: seq<Span>, ts: seq<Piece>, i: nat)
    requires |ms| == |ts| && i < |ms|
    ensures |Emitted(t, ms, ts, i)| < |Emitted(t, ms, ts, i + 1)| < |Layout(t, ms, ts)|
    ensures Layout(t, ms, ts)[|Emitted(t, ms, ts, i + 1)| - 1] == ts[i]
  {
    EmittedNext(t, ms, ts, i);
    LastOfSnoc(Emitted(t, ms, ts, i) + Gap(t, ms, i), ts[i]);
    LayoutAt(t, ms, ts, i + 1, |Emitted(t, ms, ts, i + 1)| - 1);
  }

  /**
   * Before the typed run of match `i` there is a plain run exactly when the previous match
   * ends somewhere other than where this one starts (`0` for the first match); it holds the
   * text in between, which is empty when the two matches overlap.
   */
  lemma GapBeforeMatch(t: string, ms: seq<Span>, ts: seq<Piece>, i: nat)
    requires |ms| == |ts| && i < |ms|
    ensures |Emitted(t, ms, ts, i + 1)| < |Layout(t, ms, ts)|
    ensures i == 0 ==> |Emitted(t, ms, ts, i)| == 0
    ensures
      var a := |Emitted(t, ms, ts, i)|;
      var b := |Emitted(t, ms, ts, i + 1)|;
      var prevEnd := if i == 0 then 0 else ms[i - 1].end;
      && (prevEnd != ms[i].start ==> b == a + 2 && Layout(t, ms, ts)[a] == PlainPiece(Slice(t, prevEnd, ms[i].start)))
      && (prevEnd == ms[i].start ==> b == a + 1)
  {
    TypedRunPosition(t, ms, ts, i);
    var before := Emitted(t, ms, ts, i);
    EmittedNext(t, ms, ts, i);
    var prevEnd := if i == 0 then 0 else ms[i - 1].end;
    if prevEnd != ms[i].start {
      var gap := PlainPiece(Slice(t, prevEnd, ms[i].start));
      assert Gap(t, ms, i) == [gap];
      SnocSnocAt(before, gap, ts[i]);
      LayoutAt(t, ms, ts, i + 1, |before|);
    } else {
      assert Gap(t, ms, i) == [];
    }
  }

  lemma EmittedNext(t: string, ms: seq<Span>, ts: seq<Piece>, i: nat)
    requires |ms| == |ts| && i < |ms|
    ensures Emitted(t, ms, ts, i + 1) == Emitted(t, ms, ts, i) + Gap(t, ms, i) + [ts[i]]
  {
  }

  /** The typed runs of consecutive matches come in order. */
  lemma AfterPreviousMatch(t: string, ms: seq<Span>, ts: seq<Piece>, i: nat)
    requires |ms| == |ts| && 0 < i < |ms|
    ensures
      var a := |Emitted(t, ms, ts, i)|;
      0 < a < |Layout(t, ms, ts)| && Layout(t, ms, ts)[a - 1] == ts[i - 1]
  {
    TypedRunPosition(t, ms, ts, i - 1);
  }

  /** The last run is always the plain text after the last match, possibly empty, right after that match's typed run. */
  lemma TrailingRun(t: string, ms: seq<Span>, ts: seq<Piece>)
    requires |ms| == |ts| && ms != []
    ensures
      var ps := Layout(t, ms, ts);
      && |ps| >= 2
      && ps[|ps| - 1] == PlainPiece(Slice(t, ms[|ms| - 1].end, |t|))
      && ps[|ps| - 2] == ts[|ms| - 1]
  {
    var all := Emitted(t, ms, ts, |ms|);
    assert all[|all| - 1] == ts[|ms| - 1];
  }

  // ---- an example ----

  /** The search skips positions where the pattern does not match. */
  lemma FindAllSkip(t: string, pat: Pattern, pos: nat, k: nat)
    requires pos <= k <= |t|
    requires forall p :: pos <= p < k ==> MatchEnd(t, pat, p).None?
    ensures FindAll(t, pat, pos) == FindAll(t, pat, k)
  {
    var found := FindAll(t, pat, pos);
    var j := pos;
    while j < k
      invariant pos <= j <= k && found == FindAll(t, pat, j)
    {
      assert MatchEnd(t, pat, j).None?;
      FindAllNone(t, pat, j, found);
      j := j + 1;
    }
  }

  lemma FindAllNone(t: string, pat: Pattern, pos: nat, found: seq<Span>)
    requires pos < |t| && MatchEnd(t, pat, pos).None? && found == FindAll(t, pat, pos)
    ensures found == FindAll(t, pat, pos + 1)
  {
  }

  /** Stripping a delimiter from both ends of a delimited string leaves what is inside. */
  lemma StripDelimiters(d: char, c: string)
    requires c != [] && d !in c
    ensures Strip([d] + c + [d], OneOf([d])) == c
  {
    var s := [d] + c + [d];
    var cs := OneOf([d]);
    assert s[1..] == c + [d];
    assert !Drops(cs, c[0]) && !Drops(cs, c[|c| - 1]);
    assert LStrip(c + [d], cs) == c + [d];
    assert LStrip(s, cs) == c + [d];
    assert (c + [d])[..|c|] == c;
    assert RStrip(c, cs) == c;
    assert RStrip(c + [d], cs) == c;
  }

  /** A pattern whose opening character `o` the text does not hold finds nothing. */
  lemma NoOpenerNoMatch(t: string, pat: Pattern, o: char)
    requires o == (if pat == LinkPattern || pat == MentionPattern then '[' else Delimiter(pat))
    requires forall p :: 0 <= p < |t| ==> t[p] != o
    ensures FindAll(t, pat, 0) == []
  {
    FindAllEmpty(t, pat, 0);
  }

  /** Where the text holds no delimiter, the code and equation patterns do not match. */
  lemma NoDelimiterNoMatch(t: string, pat: Pattern, lo: nat, hi: nat)
    requires pat == CodePattern || pat == EquationPattern
    requires hi <= |t| && forall p :: lo <= p < hi ==> t[p] != Delimiter(pat)
    ensures forall p :: lo <= p < hi ==> MatchEnd(t, pat, p).None?
  {
  }

  /** A delimited span with no delimiter before or after it is the only match of its pattern. */
  lemma OnlyDelimited(t: string, pat: Pattern, p: nat, e: nat)
    requires pat == CodePattern || pat == EquationPattern
    requires IsDelimited(t, Delimiter(pat), p, e)
    requires forall i :: 0 <= i < p ==> t[i] != Delimiter(pat)
    requires forall i :: e <= i < |t| ==> t[i] != Delimiter(pat)
    ensures FindAll(t, pat, 0) == [Span(pat, p, e)]
  {
    NoDelimiterNoMatch(t, pat, 0, p);
    FindAllSkip(t, pat, 0, p);
    DelimitedEndComplete(t, pat, p, e);
    NoDelimiterNoMatch(t, pat, e, |t|);
    FindAllEmpty(t, pat, e);
  }

  /** For a single match, the runs are its gap, its typed run, and the rest of the text. */
  lemma LayoutOne(t: string, sp: Span, x: Piece)
    ensures Layout(t, [sp], [x]) == Gap(t, [sp], 0) + [x, PlainPiece(Slice(t, sp.end, |t|))]
  {
    assert Emitted(t, [sp], [x], 1) == Gap(t, [sp], 0) + [x];
  }

  lemma OneMatchCut(t: string, sp: Span)
    requires Sorted(t) == [sp]
    ensures Cut(t, sp)
  {
    SortedCut(t);
    assert Sorted(t)[0] == sp;
  }

  lemma OneMatchPieces(t: string, sp: Span)
    requires Sorted(t) == [sp] && Cut(t, sp)
    ensures Pieces(t) == Layout(t, [sp], TypedRuns(t, [sp]))
  {
  }

  lemma PiecesOfOne(t: string, sp: Span, x: Piece)
    requires Sorted(t) == [sp] && Cut(t, sp) && Typed(t, sp) == x
    ensures Pieces(t) == Gap(t, [sp], 0) + [x, PlainPiece(Slice(t, sp.end, |t|))]
  {
    OneMatchPieces(t, sp);
    assert TypedRuns(t, [sp]) == [x];
    LayoutOne(t, sp, x);
  }

  /**
   * A text whose only backquotes delimit one code span `t[p..e]`, and which holds no `[` and
   * no `$`, has that span as its one match.
   */
  lemma OnlyCodeSpan(t: string, p: nat, e: nat)
    requires IsDelimited(t, '`', p, e)
    requires forall i :: 0 <= i < p ==> t[i] != '`'
    requires forall i :: e <= i < |t| ==> t[i] != '`'
    requires forall i :: 0 <= i < |t| ==> t[i] != '[' && t[i] != '$'
    ensures Sorted(t) == [Span(CodePattern, p, e)]
  {
    NoOpenerNoMatch(t, LinkPattern, '[');
    NoOpenerNoMatch(t, MentionPattern, '[');
    NoOpenerNoMatch(t, EquationPattern, '$');
    OnlyDelimited(t, CodePattern, p, e);
    assert Collect(t) == [Span(CodePattern, p, e)];
  }

  /** Such a text gives the plain run before the span (if any), the code run, and the plain run after it. */
  lemma CodeSpanPieces(t: string, p: nat, e: nat)
    requires IsDelimited(t, '`', p, e)
    requires forall i :: 0 <= i < p ==> t[i] != '`'
    requires forall i :: e <= i < |t| ==> t[i] != '`'
    requires forall i :: 0 <= i < |t| ==> t[i] != '[' && t[i] != '$'
    ensures Pieces(t) == (if p == 0 then [] else [PlainPiece(t[..p])]) + [CodePiece(Strip(t[p..e], OneOf("`"))), PlainPiece(t[e..])]
  {
    var sp := Span(CodePattern, p, e);
    OnlyCodeSpan(t, p, e);
    assert Cut(t, sp);
    PiecesOfOne(t, sp, CodePiece(Strip(t[p..e], OneOf("`"))));
    OneSpanLayout(t, sp, CodePiece(Strip(t[p..e], OneOf("`"))), Pieces(t));
  }

  /** The runs of a single match, with the slices written out. */
  lemma OneSpanLayout(t: string, sp: Span, x: Piece, ps: seq<Piece>)
    requires sp.start <= sp.end <= |t|
    requires ps == Gap(t, [sp], 0) + [x, PlainPiece(Slice(t, sp.end, |t|))]
    ensures ps == (if sp.start == 0 then [] else [PlainPiece(t[..sp.start])]) + [x, PlainPiece(t[sp.end..])]
  {
    assert Slice(t, 0, sp.start) == t[..sp.start];
    assert Slice(t, sp.end, |t|) == t[sp.end..];
  }

  lemma RunsOfThree(p: Piece, q: Piece, r: Piece)
    ensures RunsOf([p, q, r]) == [RunOf(p), RunOf(q), RunOf(r)]
  {
  }

  lemma SetXShape(t: string)
    requires t == "set `x=1` now"
    ensures IsDelimited(t, '`', 4, 9)
    ensures forall i :: 0 <= i < 4 ==> t[i] != '`'
    ensures forall i :: 9 <= i < |t| ==> t[i] != '`'
    ensures forall i :: 0 <= i < |t| ==> t[i] != '[' && t[i] != '$'
  {
  }

  lemma SetXParts(t: string)
    requires t == "set `x=1` now"
    ensures t[4..9] == ['`'] + "x=1" + ['`'] && t[..4] == "set " && t[9..] == " now"
  {
  }

  /** "set `x=1` now" gives the plain run "set ", the code run "x=1", and the plain run " now". */
  lemma SetXPieces(t: string)
    requires IsDelimited(t, '`', 4, 9)
    requires forall i :: 0 <= i < 4 ==> t[i] != '`'
    requires forall i :: 9 <= i < |t| ==> t[i] != '`'
    requires forall i :: 0 <= i < |t| ==> t[i] != '[' && t[i] != '$'
    requires t[4..9] == ['`'] + "x=1" + ['`'] && t[..4] == "set " && t[9..] == " now"
    ensures Pieces(t) == [PlainPiece("set "), CodePiece("x=1"), PlainPiece(" now")]
  {
    CodeSpanPieces(t, 4, 9);
    SetXLayout(t, Pieces(t));
  }

  lemma SetXLayout(t: string, ps: seq<Piece>)
    requires |t| >= 9 && t[4..9] == ['`'] + "x=1" + ['`'] && t[..4] == "set " && t[9..] == " now"
    requires ps == (if 4 == 0 then [] else [PlainPiece(t[..4])]) + [CodePiece(Strip(t[4..9], OneOf("`"))), PlainPiece(t[9..])]
    ensures ps == [PlainPiece("set "), CodePiece("x=1"), PlainPiece(" now")]
  {
    assert '`' !in "x=1";
    StripDelimiters('`', "x=1");
  }

  /** The runs of "set `x=1` now": plain "set ", "x=1" as red code, plain " now". */
  lemma SetXExample(t: string)
    requires t == "set `x=1` now"
    ensures Tokenize(t) == [Factory.TextRun("set "), Factory.TextRun("x=1", code := true, color := Some(Red)), Factory.TextRun(" now")]
  {
    SetXShape(t); SetXParts(t); SetXPieces(t);
    RunsOfThree(PlainPiece("set "), CodePiece("x=1"), PlainPiece(" now"));
  }

  // ---- the loop ----

  /** The body of the loop of `_text_to_richtext` for one match: the typed run it appends. */
  method MatchRun(text: string, m: Span) returns (run: O.RichText)
    requires Cut(text, m)
    ensures run == RunOf(Typed(text, m))
  {
    match m.pattern {
      case CodePattern =>
        var code := Strip(text[m.start..m.end], OneOf("`"));
        assert Typed(text, m) == CodePiece(code);
        run := Factory.TextRun(code, code := true, color := Some(Red));
      case MentionPattern =>
        var pageMention := text[m.start..m.end];
        SplitAtFirst(pageMention, ':');
        var pageId := Strip(Split(pageMention, ':')[1], OneOf("]"));
        assert Typed(text, m) == MentionPiece(pageId);
        run := Factory.PageMentionRun(pageId);
      case EquationPattern =>
        var expression := Strip(text[m.start..m.end], OneOf("$"));
        assert Typed(text, m) == EquationPiece(expression);
        run := Factory.EquationRun(expression);
      case LinkPattern =>
        var link := text[m.start..m.end];
        var (linkText, url) := MarkdownLink(link);
        assert Typed(text, m) == LinkPiece(linkText, url);
        run := Factory.TextRun(linkText, link := Some(url));
    }
  }

  /** The plain run the loop of `_text_to_richtext` emits before match `i`, if any. */
  method GapRuns(text: string, matches: seq<Span>, i: nat) returns (runs: seq<O.RichText>)
    requires i < |matches|
    ensures runs == RunsOf(Gap(text, matches, i))
  {
    runs := [];
    if i == 0 {
      if matches[i].start != 0 {
        runs := [Factory.TextRun(Slice(text, 0, matches[i].start))];
      }
    } else if matches[i - 1].end != matches[i].start {
      runs := [Factory.TextRun(Slice(text, matches[i - 1].end, matches[i].start))];
    }
  }

  /** The loop of `_text_to_richtext` over the sorted matches: each match's gap run, if any, then its typed run. */
  method EmitMatches(text: string, matches: seq<Span>) returns (richTexts: seq<O.RichText>)
    requires AllCut(text, matches)
    ensures richTexts == RunsOf(Emitted(text, matches, TypedRuns(text, matches), |matches|))
  {
    ghost var ts := TypedRuns(text, matches);
    richTexts := [];
    for i := 0 to |matches|
      invariant richTexts == RunsOf(Emitted(text, matches, ts, i))
    {
      var gap := GapRuns(text, matches, i);
      var run := MatchRun(text, matches[i]);
      assert ts[i] == Typed(text, matches[i]);
      EmittedRunsStep(text, matches, ts, i);
      richTexts := richTexts + gap + [run];
    }
  }

  /** One more match adds the runs of its gap and its typed run. */
  lemma EmittedRunsStep(t: string, ms: seq<Span>, ts: seq<Piece>, i: nat)
    requires i < |ms| == |ts|
    ensures RunsOf(Emitted(t, ms, ts, i + 1)) == RunsOf(Emitted(t, ms, ts, i)) + RunsOf(Gap(t, ms, i)) + [RunOf(ts[i])]
  {
    var before := Emitted(t, ms, ts, i);
    assert Emitted(t, ms, ts, i + 1) == before + Gap(t, ms, i) + [ts[i]];
    RunsOfAppend(before, Gap(t, ms, i));
    RunsOfAppend(before + Gap(t, ms, i), [ts[i]]);
  }

  /** `_text_to_richtext`: collects the matches, sorts them when there are any, and emits the runs. */
  method TextToRichText(text: string) returns (richTexts: seq<O.RichText>)
    ensures richTexts == Tokenize(text)
  {
    var matches := CollectMatches(text);
    if |matches| >= 1 {
      matches := SortByStart(matches);
      assert matches == Sorted(text);
      SortedCut(text);
      richTexts := EmitMatches(text, matches);
      var rest := Slice(text, matches[|matches| - 1].end, |text|);
      ghost var all := Emitted(text, matches, TypedRuns(text, matches), |matches|);
      RunsOfAppend(all, [PlainPiece(rest)]);
      richTexts := richTexts + [Factory.TextRun(rest)];
      assert Layout(text, matches, TypedRuns(text, matches)) == all + [PlainPiece(rest)];
    } else {
      assert Sorted(text) == [];
      assert Pieces(text) == [PlainPiece(text)];
      richTexts := [Factory.TextRun(text)];
      assert richTexts == RunsOf([PlainPiece(text)]);
    }
  }
}

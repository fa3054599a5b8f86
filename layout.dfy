/**
 * The layout rewriting in `write_json` of bin/build_config.py: every component name
 * in the layout string is replaced by the view made for it (`views[j]`) or, when no
 * view can be made, by the empty string; the replacements are spliced right to left.
 */
module Layout {
  import opened PyStrings

  // ---------------------------------------------------------------------------
  // `regex.finditer("[a-zA-Z]+", layout)`

  /** A match object: its span and the text it matched. */
  datatype Match = Match(start: nat, end: nat, group: string)

  /** Where the run of letters starting at `j` ends. */
  function RunEnd(s: string, j: nat): (r: nat)
    requires j <= |s|
    ensures j <= r <= |s|
    ensures forall p :: j <= p < r ==> IsAsciiLetter(s[p])
    ensures r == |s| || !IsAsciiLetter(s[r])
    ensures j < |s| && IsAsciiLetter(s[j]) ==> j < r
    decreases |s| - j
  {
    if j < |s| && IsAsciiLetter(s[j]) then RunEnd(s, j + 1) else j
  }

  /** The matches at or after `i`, scanning left to right without overlap. */
  function MatchesFrom(s: string, i: nat): seq<Match>
    requires i <= |s|
    decreases |s| - i
  {
    if i == |s| then []
    else if !IsAsciiLetter(s[i]) then MatchesFrom(s, i + 1)
    else
      var e := RunEnd(s, i);
      [Match(i, e, s[i..e])] + MatchesFrom(s, e)
  }

  function LetterRuns(s: string): seq<Match> {
    MatchesFrom(s, 0)
  }

  /** `m` matches a maximal run of ASCII letters of `s`, and its group is the matched text. */
  predicate IsLetterRun(s: string, m: Match) {
    && m.start < m.end <= |s|
    && m.group == s[m.start..m.end]
    && (forall p :: m.start <= p < m.end ==> IsAsciiLetter(s[p]))
    && (m.start == 0 || !IsAsciiLetter(s[m.start - 1]))
    && (m.end == |s| || !IsAsciiLetter(s[m.end]))
  }

  /** Spans in increasing order, not overlapping, each within a string of length `n`. */
  predicate Ordered(ms: seq<Match>, n: nat) {
    && (forall k :: 0 <= k < |ms| ==> ms[k].start <= ms[k].end <= n)
    && (forall k :: 0 < k < |ms| ==> ms[k - 1].end <= ms[k].start)
  }

  /** Every letter at or after `i` lies in one of the spans. */
  predicate CoversLetters(s: string, ms: seq<Match>, i: nat) {
    forall p :: i <= p < |s| && IsAsciiLetter(s[p]) ==>
      exists k :: 0 <= k < |ms| && ms[k].start <= p < ms[k].end
  }

  /** Every span is non-empty, starts at or after `i` and ends within a string of length `n`. */
  predicate SpansAfter(ms: seq<Match>, i: nat, n: nat) {
    forall k :: 0 <= k < |ms| ==> i <= ms[k].start < ms[k].end <= n
  }

  /** Consecutive spans do not overlap. */
  predicate Disjoint(ms: seq<Match>) {
    forall k :: 0 < k < |ms| ==> ms[k - 1].end <= ms[k].start
  }

  /** Every span is a maximal run of letters of `s`. */
  predicate AllRuns(s: string, ms: seq<Match>) {
    forall k :: 0 <= k < |ms| ==> IsLetterRun(s, ms[k])
  }

  lemma {:induction false} MatchesAfter(s: string, i: nat)
    requires i <= |s|
    ensures SpansAfter(MatchesFrom(s, i), i, |s|)
    decreases |s| - i
  {
    if i < |s| {
      if !IsAsciiLetter(s[i]) {
        MatchesAfter(s, i + 1);
      } else {
        var e := RunEnd(s, i);
        var rest := MatchesFrom(s, e);
        MatchesAfter(s, e);
        var ms := MatchesFrom(s, i);
        assert ms == [Match(i, e, s[i..e])] + rest;
        assert forall k :: 1 <= k < |ms| ==> ms[k] == rest[k - 1];
      }
    }
  }

  /** Each match is a maximal run of letters, provided the scan does not start inside a run. */
  lemma {:induction false} MatchesAreRuns(s: string, i: nat)
    requires i <= |s|
    requires i == 0 || i == |s| || !IsAsciiLetter(s[i - 1]) || !IsAsciiLetter(s[i])
    ensures AllRuns(s, MatchesFrom(s, i))
    decreases |s| - i
  {
    if i < |s| {
      if !IsAsciiLetter(s[i]) {
        MatchesAreRuns(s, i + 1);
      } else {
        var e := RunEnd(s, i);
        var rest := MatchesFrom(s, e);
        MatchesAreRuns(s, e);
        var ms := MatchesFrom(s, i);
        assert ms == [Match(i, e, s[i..e])] + rest;
        assert forall k :: 1 <= k < |ms| ==> ms[k] == rest[k - 1];
      }
    }
  }

  /** Consecutive matches do not overlap. */
  lemma {:induction false} MatchesOrdered(s: string, i: nat)
    requires i <= |s|
    ensures Disjoint(MatchesFrom(s, i))
    decreases |s| - i
  {
    if i < |s| {
      if !IsAsciiLetter(s[i]) {
        MatchesOrdered(s, i + 1);
      } else {
        var e := RunEnd(s, i);
        var rest := MatchesFrom(s, e);
        MatchesOrdered(s, e);
        MatchesAfter(s, e);
        var ms := MatchesFrom(s, i);
        assert ms == [Match(i, e, s[i..e])] + rest;
        assert forall k :: 1 <= k < |ms| ==> ms[k] == rest[k - 1];
      }
    }
  }

  /** Every letter at or after `i` lies in some match. */
  lemma {:induction false} MatchesCover(s: string, i: nat)
    requires i <= |s|
    ensures CoversLetters(s, MatchesFrom(s, i), i)
    decreases |s| - i
  {
    var ms := MatchesFrom(s, i);
    if i == |s| {
    } else if !IsAsciiLetter(s[i]) {
      MatchesCover(s, i + 1);
      forall p | i <= p < |s| && IsAsciiLetter(s[p])
        ensures exists k :: 0 <= k < |ms| && ms[k].start <= p < ms[k].end
      {
        assert i + 1 <= p;
      }
    } else {
      var e := RunEnd(s, i);
      var rest := MatchesFrom(s, e);
      MatchesCover(s, e);
      assert ms == [Match(i, e, s[i..e])] + rest;
      forall p | i <= p < |s| && IsAsciiLetter(s[p])
        ensures exists k :: 0 <= k < |ms| && ms[k].start <= p < ms[k].end
      {
        if p < e {
          assert ms[0].start <= p < ms[0].end;
        } else {
          var k :| 0 <= k < |rest| && rest[k].start <= p < rest[k].end;
          assert ms[k + 1] == rest[k];
        }
      }
    }
  }

  /**
   * The matches are exactly the maximal runs of ASCII letters, from left to right: each is
   * such a run, they do not overlap, and every letter of the layout lies in one of them.
   */
  lemma LetterRunsSpec(s: string)
    ensures AllRuns(s, LetterRuns(s))
    ensures Ordered(LetterRuns(s), |s|)
    ensures CoversLetters(s, LetterRuns(s), 0)
  {
    MatchesAfter(s, 0);
    MatchesAreRuns(s, 0);
    MatchesOrdered(s, 0);
    MatchesCover(s, 0);
  }

  // ---------------------------------------------------------------------------
  // Which components get a view

  /**
   * The constant tables the loop consults: the names of the viewer's components, the
   * data types each component needs (one of them suffices) and the coordination types
   * each component uses.
   */
  datatype Tables = Tables(
    components: set<string>,
    componentDataTypes: map<string, set<string>>,
    componentCoordinationTypes: map<string, seq<string>>)

  /**
   * The state of the config when the layout is read: the data types that have a file and
   * the coordination types that have at least one scope to cycle through.
   */
  datatype LayoutContext = LayoutContext(tables: Tables, dataTypes: set<string>, scoped: set<string>)

  /** A component passes the first two checks when its name is a component and some data type it needs has a file. */
  predicate PassesDataCheck(ctx: LayoutContext, name: string) {
    var t := ctx.tables;
    && name in t.components
    && (name in t.componentDataTypes ==> t.componentDataTypes[name] * ctx.dataTypes != {})
  }

  /**
   * A component gets a view when it passes the first two checks and every coordination
   * type it uses has a scope.
   */
  predicate GetsView(ctx: LayoutContext, name: string) {
    var t := ctx.tables;
    && PassesDataCheck(ctx, name)
    && (name in t.componentCoordinationTypes ==>
          forall i :: 0 <= i < |t.componentCoordinationTypes[name]| ==>
            t.componentCoordinationTypes[name][i] in ctx.scoped)
  }

  /** One entry of `views_indx`: a span of the layout and the text that replaces it. */
  datatype Replacement = Replacement(start: nat, end: nat, text: string)

  /** `"views[{}]".format(j)`. */
  function ViewRef(j: nat): string {
    "views[" + NatToString(j) + "]"
  }

  /** The views made for the matches `ms`, in order (a view stands for its component). */
  function Views(ctx: LayoutContext, ms: seq<Match>): seq<string> {
    if ms == [] then []
    else
      var last := ms[|ms| - 1];
      Views(ctx, ms[..|ms| - 1]) + (if GetsView(ctx, last.group) then [last.group] else [])
  }

  /** The replacements recorded for the matches `ms`, in match order. */
  function Replacements(ctx: LayoutContext, ms: seq<Match>): (r: seq<Replacement>)
    ensures |r| == |ms|
  {
    if ms == [] then []
    else
      var init := ms[..|ms| - 1];
      var last := ms[|ms| - 1];
      Replacements(ctx, init)
        + [Replacement(last.start, last.end, if GetsView(ctx, last.group) then ViewRef(|Views(ctx, init)|) else "")]
  }

  /** The number of views made before the `k`-th match. */
  function ViewIndex(ctx: LayoutContext, ms: seq<Match>, k: nat): nat
    requires k <= |ms|
  {
    |Views(ctx, ms[..k])|
  }

  /** Each replacement covers its match's span; it is empty exactly for a component without a view. */
  lemma {:induction false} ReplacementsAt(ctx: LayoutContext, ms: seq<Match>, k: nat)
    requires k < |ms|
    ensures var r := Replacements(ctx, ms)[k];
      && r.start == ms[k].start && r.end == ms[k].end
      && r.text == (if GetsView(ctx, ms[k].group) then ViewRef(ViewIndex(ctx, ms, k)) else "")
  {
    var init := ms[..|ms| - 1];
    if k < |ms| - 1 {
      ReplacementsAt(ctx, init, k);
      assert init[..k] == ms[..k];
    } else {
      assert ms[..k] == init;
    }
  }

  /** A view reference is never empty, so kept and dropped components are told apart. */
  lemma ViewRefNonEmpty(j: nat)
    ensures ViewRef(j) != "" && ViewRef(j)[0] == 'v'
  {
  }

  /** Distinct view numbers give distinct view references. */
  lemma ViewRefInjective(a: nat, b: nat)
    requires ViewRef(a) == ViewRef(b)
    ensures a == b
  {
    var sa, sb := NatToString(a), NatToString(b);
    assert ViewRef(a)[6..6 + |sa|] == sa;
    assert |ViewRef(a)| == 7 + |sa|;
    assert ViewRef(b)[6..6 + |sb|] == sb;
    assert sa == sb;
    NatToStringInjective(a, b);
  }

  /** The views made for a prefix of the matches are a prefix of all views. */
  lemma {:induction false} ViewsPrefix(ctx: LayoutContext, ms: seq<Match>, k: nat)
    requires k <= |ms|
    ensures |Views(ctx, ms[..k])| <= |Views(ctx, ms)|
    ensures Views(ctx, ms)[..|Views(ctx, ms[..k])|] == Views(ctx, ms[..k])
  {
    if k < |ms| {
      var init := ms[..|ms| - 1];
      ViewsPrefix(ctx, init, k);
      assert init[..k] == ms[..k];
      assert ms[..|ms|] == ms;
    } else {
      assert ms[..k] == ms;
    }
  }

  /**
   * Kept components are numbered `views[0]`, `views[1]`, … from left to right: the `k`-th
   * match, when kept, refers to the view made for its own component, and a later kept
   * match refers to a later view.
   */
  lemma {:induction false} ViewNumbering(ctx: LayoutContext, ms: seq<Match>, k: nat, l: nat)
    requires k < l < |ms|
    requires GetsView(ctx, ms[k].group)
    ensures ViewIndex(ctx, ms, k) < ViewIndex(ctx, ms, l) <= |Views(ctx, ms)|
    ensures Views(ctx, ms)[ViewIndex(ctx, ms, k)] == ms[k].group
  {
    ViewsStep(ctx, ms, k);
    ViewsPrefix(ctx, ms[..l], k + 1);
    assert ms[..l][..k + 1] == ms[..k + 1];
    ViewsPrefix(ctx, ms, l);
    ViewsPrefix(ctx, ms, k + 1);
  }

  /** One more match adds its component's view, if it gets one. */
  lemma {:induction false} ViewsStep(ctx: LayoutContext, ms: seq<Match>, k: nat)
    requires k < |ms|
    ensures Views(ctx, ms[..k + 1]) == Views(ctx, ms[..k]) + (if GetsView(ctx, ms[k].group) then [ms[k].group] else [])
  {
    assert ms[..k + 1][..k] == ms[..k];
  }

  /** Every view made is for a component that gets one. */
  lemma {:induction false} ViewsGetView(ctx: LayoutContext, ms: seq<Match>, j: nat)
    requires j < |Views(ctx, ms)|
    ensures GetsView(ctx, Views(ctx, ms)[j])
  {
    var init := ms[..|ms| - 1];
    if j < |Views(ctx, init)| {
      ViewsGetView(ctx, init, j);
    }
  }

  /** Every view made is referred to by some match. */
  lemma {:induction false} EveryViewReferred(ctx: LayoutContext, ms: seq<Match>, j: nat)
    requires j < |Views(ctx, ms)|
    ensures exists k :: 0 <= k < |ms| && GetsView(ctx, ms[k].group) && ViewIndex(ctx, ms, k) == j
  {
    var init := ms[..|ms| - 1];
    var last := ms[|ms| - 1];
    if j < |Views(ctx, init)| {
      EveryViewReferred(ctx, init, j);
      var k :| 0 <= k < |init| && GetsView(ctx, init[k].group) && ViewIndex(ctx, init, k) == j;
      assert init[..k] == ms[..k];
      assert ms[k] == init[k];
    } else {
      assert ms[..|ms| - 1] == init;
      assert GetsView(ctx, last.group) && ViewIndex(ctx, ms, |ms| - 1) == j;
    }
  }

  /** The inner loop: every coordination type the component uses has a scope to take. */
  /**
   * The views `config.add_view` registers as written: it is called once a component passes
   * the first two checks, before its coordination types are looked at.
   */
  function RegisteredViews(ctx: LayoutContext, ms: seq<Match>): seq<string> {
    if ms == [] then []
    else
      var last := ms[|ms| - 1];
      RegisteredViews(ctx, ms[..|ms| - 1]) + (if PassesDataCheck(ctx, last.group) then [last.group] else [])
  }

  /** As written, at least as many views are registered as the layout refers to. */
  lemma {:induction false} RegisteredCoverViews(ctx: LayoutContext, ms: seq<Match>)
    ensures |Views(ctx, ms)| <= |RegisteredViews(ctx, ms)|
    ensures |Views(ctx, ms)| == |RegisteredViews(ctx, ms)| ==> Views(ctx, ms) == RegisteredViews(ctx, ms)
  {
    if ms != [] {
      RegisteredCoverViews(ctx, ms[..|ms| - 1]);
    }
  }

  /**
   * As written, a component whose coordination type has no scope is dropped from the layout
   * but keeps the view registered for it, which nothing refers to.
   */
  lemma UnreferencedViewAsWritten()
    ensures var ctx := LayoutContext(Tables({"c"}, map[], map["c" := ["t"]]), {}, {});
      var ms := [Match(0, 1, "c")];
      RegisteredViews(ctx, ms) == ["c"] && Views(ctx, ms) == []
  {
    var ctx := LayoutContext(Tables({"c"}, map[], map["c" := ["t"]]), {}, {});
    assert !GetsView(ctx, "c") by {
      assert ctx.tables.componentCoordinationTypes["c"][0] !in ctx.scoped;
    }
  }

  method HasCoordination(types: seq<string>, scoped: set<string>) returns (hasCtype: bool)
    ensures hasCtype <==> forall i :: 0 <= i < |types| ==> types[i] in scoped
  {
    hasCtype := true;
    var i := 0;
    while i < |types|
      invariant 0 <= i <= |types|
      invariant forall j :: 0 <= j < i ==> types[j] in scoped
    {
      if types[i] !in scoped {
        // `next` on an empty cycle raises StopIteration
        hasCtype := false;
        break;
      }
      i := i + 1;
    }
  }

  /** One pass of the matches loop: whether the component named `name` gets a view. */
  method DecideView(ctx: LayoutContext, name: string) returns (keep: bool)
    ensures keep <==> GetsView(ctx, name)
  {
    var t := ctx.tables;
    if name !in t.components {
      // `Component(name)` raises ValueError
      return false;
    }
    if name in t.componentDataTypes && t.componentDataTypes[name] * ctx.dataTypes == {} {
      return false;
    }
    if name in t.componentCoordinationTypes {
      keep := HasCoordination(t.componentCoordinationTypes[name], ctx.scoped);
      return;
    }
    return true;
  }

  /** The loop over the matches: collects `views` and `views_indx`. */
  method CollectViews(ctx: LayoutContext, ms: seq<Match>) returns (views: seq<string>, viewsIndx: seq<Replacement>)
    ensures views == Views(ctx, ms)
    ensures viewsIndx == Replacements(ctx, ms)
  {
    views, viewsIndx := [], [];
    var k := 0;
    while k < |ms|
      invariant 0 <= k <= |ms|
      invariant views == Views(ctx, ms[..k])
      invariant viewsIndx == Replacements(ctx, ms[..k])
    {
      var m := ms[k];
      assert ms[..k + 1][..k] == ms[..k];
      var keep := DecideView(ctx, m.group);
      if !keep {
        viewsIndx := viewsIndx + [Replacement(m.start, m.end, "")];
      } else {
        views := views + [m.group];
        viewsIndx := viewsIndx + [Replacement(m.start, m.end, ViewRef(|views| - 1))];
      }
      k := k + 1;
    }
    assert ms[..k] == ms;
  }

  // ---------------------------------------------------------------------------
  // Splicing

  /** Where the first span starts, or the end of the string. */
  function NextStart(rs: seq<Replacement>, n: nat): nat {
    if rs == [] then n else rs[0].start
  }

  /** Spans in increasing order, not overlapping, within a string of length `n`. */
  predicate Spliceable(rs: seq<Replacement>, n: nat)
    decreases |rs|
  {
    rs == [] || (rs[0].start <= rs[0].end <= NextStart(rs[1..], n) <= n && Spliceable(rs[1..], n))
  }

  /** Increasing, non-overlapping spans within the string can be spliced. */
  lemma {:induction false} SpliceableFromOrder(rs: seq<Replacement>, n: nat)
    requires forall k :: 0 <= k < |rs| ==> rs[k].start <= rs[k].end <= n
    requires forall k :: 0 < k < |rs| ==> rs[k - 1].end <= rs[k].start
    ensures Spliceable(rs, n)
    decreases |rs|
  {
    if rs != [] {
      var tl := rs[1..];
      assert forall k :: 0 <= k < |tl| ==> tl[k] == rs[k + 1];
      SpliceableFromOrder(tl, n);
      if tl != [] {
        assert rs[0].end <= rs[1].start;
      }
    }
  }

  /**
   * The reference result: `s` from `pos` on with each span replaced by its text, read
   * left to right over the original string.
   */
  function ReplaceFrom(s: string, rs: seq<Replacement>, pos: nat): string
    requires Spliceable(rs, |s|) && pos <= NextStart(rs, |s|)
    decreases |rs|
  {
    if rs == [] then s[pos..]
    else s[pos..rs[0].start] + rs[0].text + ReplaceFrom(s, rs[1..], rs[0].end)
  }

  /** Starting earlier in the gap before the first span only adds the gap's text. */
  lemma {:induction false} ReplaceFromGap(s: string, rs: seq<Replacement>, pos: nat, q: nat)
    requires Spliceable(rs, |s|) && pos <= q <= NextStart(rs, |s|)
    ensures ReplaceFrom(s, rs, pos) == s[pos..q] + ReplaceFrom(s, rs, q)
  {
    if rs == [] {
      assert s[pos..] == s[pos..q] + s[q..];
    } else {
      var r := rs[0];
      var tail := ReplaceFrom(s, rs[1..], r.end);
      assert ReplaceFrom(s, rs, pos) == s[pos..r.start] + r.text + tail;
      assert ReplaceFrom(s, rs, q) == s[q..r.start] + r.text + tail;
      assert s[pos..r.start] == s[pos..q] + s[q..r.start];
    }
  }

  /** Replacing every span by its own text gives back the string. */
  lemma {:induction false} ReplaceFromIdentity(s: string, rs: seq<Replacement>, pos: nat)
    requires Spliceable(rs, |s|) && pos <= NextStart(rs, |s|)
    requires forall k :: 0 <= k < |rs| && rs[k].start <= rs[k].end <= |s| ==> rs[k].text == s[rs[k].start..rs[k].end]
    ensures ReplaceFrom(s, rs, pos) == s[pos..]
    decreases |rs|
  {
    if rs != [] {
      assert forall k :: 0 <= k < |rs| - 1 ==> rs[1..][k] == rs[k + 1];
      ReplaceFromIdentity(s, rs[1..], rs[0].end);
      assert s[pos..] == s[pos..rs[0].start] + s[rs[0].start..rs[0].end] + s[rs[0].end..];
    }
  }

  /** `sorted(views_indx, key=start, reverse=True)` for spans that start in increasing order. */
  function Reversed(rs: seq<Replacement>): (r: seq<Replacement>)
    ensures |r| == |rs|
    ensures forall k :: 0 <= k < |rs| ==> r[k] == rs[|rs| - 1 - k]
  {
    if rs == [] then [] else Reversed(rs[1..]) + [rs[0]]
  }

  /** Consecutive spans of a spliceable list start in increasing order. */
  lemma {:induction false} SpliceableStarts(rs: seq<Replacement>, n: nat, k: nat, l: nat)
    requires Spliceable(rs, n) && k < l < |rs|
    ensures rs[k].start <= rs[l].start
    decreases |rs|
  {
    if k == 0 {
      if l > 1 {
        SpliceableStarts(rs[1..], n, 0, l - 1);
      }
    } else {
      SpliceableStarts(rs[1..], n, k - 1, l - 1);
    }
  }

  /**
   * Visiting the spans from last to first is a sort by descending start: it is a
   * permutation of the spans and the starts never increase.
   */
  lemma ReversedIsSortedDescending(rs: seq<Replacement>, n: nat, k: nat, l: nat)
    requires Spliceable(rs, n) && k < l < |rs|
    ensures multiset(Reversed(rs)) == multiset(rs)
    ensures Reversed(rs)[k].start >= Reversed(rs)[l].start
  {
    ReversedMultiset(rs);
    SpliceableStarts(rs, n, |rs| - 1 - l, |rs| - 1 - k);
  }

  lemma {:induction false} ReversedMultiset(rs: seq<Replacement>)
    ensures multiset(Reversed(rs)) == multiset(rs)
  {
    if rs != [] {
      ReversedMultiset(rs[1..]);
      assert rs == [rs[0]] + rs[1..];
    }
  }

  /** The end of the `k`-th span, or 0 before the first: everything before it is untouched. */
  function Bound(rs: seq<Replacement>, k: nat): nat
    requires k <= |rs|
  {
    if k == 0 then 0 else rs[k - 1].end
  }

  /** The spans from the `k`-th on can be spliced, and they start after the spans before them end. */
  lemma {:induction false} SpliceableSuffix(rs: seq<Replacement>, n: nat, k: nat)
    requires Spliceable(rs, n) && k <= |rs|
    ensures Spliceable(rs[k..], n)
    ensures Bound(rs, k) <= NextStart(rs[k..], n)
  {
    if k > 0 {
      SpliceableSuffix(rs, n, k - 1);
      assert rs[k - 1..][1..] == rs[k..];
    }
  }

  /** One splice: `config_layout[:start] + view + config_layout[end:]` on the state before span `k`. */
  lemma {:induction false} SpliceStep(s: string, rs: seq<Replacement>, k: nat, out: string)
    requires Spliceable(rs, |s|) && 0 < k <= |rs|
    requires Spliceable(rs[k..], |s|) && Bound(rs, k) <= NextStart(rs[k..], |s|)
    requires out == s[..Bound(rs, k)] + ReplaceFrom(s, rs[k..], Bound(rs, k))
    ensures Spliceable(rs[k - 1..], |s|) && Bound(rs, k - 1) <= NextStart(rs[k - 1..], |s|)
    ensures rs[k - 1].start <= rs[k - 1].end <= |out|
    ensures out[..rs[k - 1].start] + rs[k - 1].text + out[rs[k - 1].end..]
      == s[..Bound(rs, k - 1)] + ReplaceFrom(s, rs[k - 1..], Bound(rs, k - 1))
  {
    SpliceableSuffix(rs, |s|, k - 1);
    var r := rs[k - 1];
    var b := Bound(rs, k);
    var b0 := Bound(rs, k - 1);
    var tail := ReplaceFrom(s, rs[k..], b);
    assert rs[k - 1..][1..] == rs[k..];
    assert ReplaceFrom(s, rs[k - 1..], b0) == s[b0..r.start] + r.text + tail;
    assert out[..r.start] == s[..r.start];
    assert out[r.end..] == tail;
    assert s[..r.start] == s[..b0] + s[b0..r.start];
  }

  /**
   * The splicing loop: the spans are replaced from last to first, so each splice leaves the
   * offsets of the spans still to do valid, and the result is that of replacing every
   * original span.
   */
  method Splice(s: string, viewsIndx: seq<Replacement>) returns (configLayout: string)
    requires Spliceable(viewsIndx, |s|)
    ensures configLayout == ReplaceFrom(s, viewsIndx, 0)
  {
    configLayout := s;
    var k := |viewsIndx|;
    SpliceableSuffix(viewsIndx, |s|, k);
    assert viewsIndx[k..] == [];
    assert s == s[..Bound(viewsIndx, k)] + s[Bound(viewsIndx, k)..];
    while k > 0
      invariant 0 <= k <= |viewsIndx|
      invariant Spliceable(viewsIndx[k..], |s|) && Bound(viewsIndx, k) <= NextStart(viewsIndx[k..], |s|)
      invariant configLayout == s[..Bound(viewsIndx, k)] + ReplaceFrom(s, viewsIndx[k..], Bound(viewsIndx, k))
    {
      SpliceStep(s, viewsIndx, k, configLayout);
      var r := viewsIndx[k - 1];
      configLayout := configLayout[..r.start] + r.text + configLayout[r.end..];
      k := k - 1;
    }
    assert viewsIndx[0..] == viewsIndx;
  }

  // ---------------------------------------------------------------------------
  // The whole rewrite

  /** The replacements keep the spans of the matches they come from. */
  lemma ReplacementsSpliceable(ctx: LayoutContext, s: string, ms: seq<Match>)
    requires Ordered(ms, |s|)
    ensures Spliceable(Replacements(ctx, ms), |s|)
  {
    var rs := Replacements(ctx, ms);
    forall k | 0 <= k < |rs| ensures rs[k].start == ms[k].start && rs[k].end == ms[k].end {
      ReplacementsAt(ctx, ms, k);
    }
    SpliceableFromOrder(rs, |s|);
  }

  /** The layout string after the component names are replaced, and the views made. */
  function RewrittenLayout(ctx: LayoutContext, layout: string): string {
    var ms := LetterRuns(layout);
    LetterRunsSpec(layout);
    ReplacementsSpliceable(ctx, layout, ms);
    ReplaceFrom(layout, Replacements(ctx, ms), 0)
  }

  /** The matches loop followed by the splicing loop. */
  method RewriteLayout(ctx: LayoutContext, layout: string) returns (configLayout: string, views: seq<string>)
    ensures views == Views(ctx, LetterRuns(layout))
    ensures configLayout == RewrittenLayout(ctx, layout)
  {
    var ms := LetterRuns(layout);
    var viewsIndx;
    views, viewsIndx := CollectViews(ctx, ms);
    LetterRunsSpec(layout);
    ReplacementsSpliceable(ctx, layout, ms);
    configLayout := Splice(layout, viewsIndx);
  }

  /** A component that gets a view has its span replaced by the reference to its own view. */
  lemma AllKeptRewrite(ctx: LayoutContext, layout: string, k: nat)
    requires k < |LetterRuns(layout)| && GetsView(ctx, LetterRuns(layout)[k].group)
    ensures Replacements(ctx, LetterRuns(layout))[k].text == ViewRef(ViewIndex(ctx, LetterRuns(layout), k))
  {
    ReplacementsAt(ctx, LetterRuns(layout), k);
  }
}

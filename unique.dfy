/**
 * `var_names_make_unique`, which anndata implements as `make_index_unique(index, "-")`:
 * the first occurrence of a name is kept, and every later duplicate becomes
 * `name-1`, `name-2`, …: the counter kept for that name moves on to the first value
 * above where it stood whose name is not yet taken.
 */
module UniqueNames {
  import opened PyStrings

  /** No name occurs twice. */
  predicate Unique(xs: seq<string>) {
    forall j, k :: 0 <= j < k < |xs| ==> xs[j] != xs[k]
  }

  /** `v + join + str(counter[v])` with `join = "-"`. */
  function Suffixed(v: string, c: nat): string {
    v + "-" + NatToString(c)
  }

  /** `n` is `v-<digits>` for a number above `c`. */
  predicate SuffixAbove(n: string, v: string, c: nat) {
    && |v| + 1 < |n|
    && n[..|v| + 1] == v + "-"
    && IsNumeric(n[|v| + 1..])
    && ParseNat(n[|v| + 1..]) > c
  }

  lemma SuffixedAbove(v: string, c: nat, c0: nat)
    ensures SuffixAbove(Suffixed(v, c), v, c0) <==> c > c0
  {
    var n := Suffixed(v, c);
    assert n[..|v| + 1] == v + "-";
    assert n[|v| + 1..] == NatToString(c);
    ParseNatToString(c);
  }

  /** Different counter values give different names. */
  lemma SuffixedInjective(v: string, c: nat, d: nat)
    requires Suffixed(v, c) == Suffixed(v, d)
    ensures c == d
  {
    var n := Suffixed(v, c);
    assert n[|v| + 1..] == NatToString(c);
    assert Suffixed(v, d)[|v| + 1..] == NatToString(d);
    NatToStringInjective(c, d);
  }

  /** The taken names that the counter, now at `c`, may still run into. */
  function Ahead(s: set<string>, v: string, c: nat): set<string> {
    set n | n in s && SuffixAbove(n, v, c)
  }

  lemma SubsetCard<T>(a: set<T>, b: set<T>)
    requires a <= b
    ensures |a| <= |b|
  {
    assert b == a + (b - a);
  }

  /** A collision at `c` leaves one name fewer ahead of the counter. */
  lemma AheadShrinks(s: set<string>, v: string, c0: nat, c: nat)
    requires c0 < c && Suffixed(v, c) in s
    ensures |Ahead(s, v, c)| < |Ahead(s, v, c0)|
  {
    var name := Suffixed(v, c);
    SuffixedAbove(v, c, c0);
    SuffixedAbove(v, c, c);
    assert name in Ahead(s, v, c0);
    assert Ahead(s, v, c) <= Ahead(s, v, c0) - {name};
    SubsetCard(Ahead(s, v, c), Ahead(s, v, c0) - {name});
  }

  /** `counter[v]` of a `Counter`: 0 for a name not counted yet. */
  function CountOf(counter: map<string, nat>, v: string): nat {
    if v in counter then counter[v] else 0
  }

  /** `c` is the first value above `c0` for which `v-c` is not taken. */
  predicate FirstFree(v: string, taken: set<string>, c0: nat, c: nat) {
    && c0 < c
    && Suffixed(v, c) !in taken
    && forall d: nat :: c0 < d < c ==> Suffixed(v, d) in taken
  }

  /**
   * The `while True` loop for one duplicate `v`: bump `counter[v]` until `v-counter` is not
   * taken, then take it.
   */
  method FreshName(v: string, taken: set<string>, counter: map<string, nat>)
    returns (name: string, taken': set<string>, counter': map<string, nat>)
    ensures v in counter' && counter' == counter[v := counter'[v]]
    ensures FirstFree(v, taken, CountOf(counter, v), counter'[v])
    ensures name == Suffixed(v, counter'[v]) && taken' == taken + {name}
  {
    var c := CountOf(counter, v);
    while true
      invariant CountOf(counter, v) <= c
      invariant forall d: nat :: CountOf(counter, v) < d <= c ==> Suffixed(v, d) in taken
      decreases |Ahead(taken, v, c)|
    {
      var next := c + 1;
      var candidate := Suffixed(v, next);
      if candidate !in taken {
        return candidate, taken + {candidate}, counter[v := next];
      }
      AheadShrinks(taken, v, c, next);
      c := next;
    }
  }

  /** Whether the name at `j` repeats one before it (`index.duplicated(keep="first")`). */
  predicate Duplicated(values: seq<string>, j: nat)
    requires j < |values|
  {
    values[j] in values[..j]
  }

  /** What the result holds at `j`: the name itself, or a fresh `name-<n>` for a repeat. */
  ghost predicate Renamed(values: seq<string>, r: seq<string>, j: nat)
    requires j < |values| && j < |r|
  {
    if Duplicated(values, j) then r[j] !in values && exists c: nat :: c > 0 && r[j] == Suffixed(values[j], c)
    else r[j] == values[j]
  }

  /** A list whose names are unique has no repeats. */
  lemma UniqueHasNoRepeat(values: seq<string>, j: nat)
    requires Unique(values) && j < |values|
    ensures !Duplicated(values, j)
  {
  }

  /**
   * `make_index_unique`: the result has the input's length, no name twice, keeps every
   * first occurrence and gives every repeat a fresh `name-<n>` that was not an input name.
   */
  method MakeIndexUnique(values: seq<string>) returns (r: seq<string>)
    ensures |r| == |values|
    ensures Unique(r)
    ensures forall j :: 0 <= j < |values| ==> Renamed(values, r, j)
  {
    if Unique(values) {
      forall j | 0 <= j < |values| ensures Renamed(values, values, j) {
        UniqueHasNoRepeat(values, j);
      }
      return values;
    }
    var taken := set v | v in values;
    var counter: map<string, nat> := map[];
    r := [];
    var i := 0;
    while i < |values|
      invariant 0 <= i <= |values| && |r| == i
      invariant forall v :: v in values ==> v in taken
      invariant forall j :: 0 <= j < i ==> r[j] in taken
      invariant Unique(r)
      invariant forall j :: 0 <= j < i ==> Renamed(values, r, j)
    {
      var v := values[i];
      var r0 := r;
      if v !in values[..i] {
        forall j | 0 <= j < i ensures r[j] != v {
          assert Renamed(values, r, j);
          if !Duplicated(values, j) {
            assert values[..i][j] == values[j];
          } else {
            assert v in values;
          }
        }
        r := r + [v];
      } else {
        var name;
        name, taken, counter := FreshName(v, taken, counter);
        r := r + [name];
      }
      assert forall j :: 0 <= j < i ==> r[j] == r0[j];
      assert forall j :: 0 <= j < i ==> Renamed(values, r0, j) ==> Renamed(values, r, j);
      i := i + 1;
    }
  }
}

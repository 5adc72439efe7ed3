/** Label recommendations and the deduplication rule used while collecting them. */
module Labels {

  /** One recommended record label: its name and a link to show next to it. */
  datatype LabelEntry = LabelEntry(name: string, url: string)

  /** The names of a list of entries, in order. */
  function Names(ls: seq<LabelEntry>): (ns: seq<string>)
    ensures |ns| == |ls|
    ensures forall i :: 0 <= i < |ls| ==> ns[i] == ls[i].name
  {
    seq(|ls|, i requires 0 <= i < |ls| => ls[i].name)
  }

  /** Every name is non-empty and no two entries share a name (exact,
      case-sensitive comparison; URLs may repeat). */
  predicate WellFormed(ls: seq<LabelEntry>) {
    && (forall i :: 0 <= i < |ls| ==> ls[i].name != "")
    && (forall i, j :: 0 <= i < j < |ls| ==> ls[i].name != ls[j].name)
  }

  lemma NamesOfPrefix(ls: seq<LabelEntry>, ms: seq<LabelEntry>, n: string)
    requires ls <= ms
    requires n in Names(ls)
    ensures n in Names(ms)
  {
  }

  /** One collection step: append `e` unless its name is empty or already listed. */
  function Keep(ls: seq<LabelEntry>, e: LabelEntry): (r: seq<LabelEntry>)
    ensures ls <= r && |r| <= |ls| + 1
    ensures WellFormed(ls) ==> WellFormed(r)
    ensures e.name != "" ==> e.name in Names(r)
    ensures |r| == |ls| + 1 <==> e.name != "" && e.name !in Names(ls)
    ensures |r| == |ls| + 1 ==> r[|ls|] == e
  {
    if e.name != "" && e.name !in Names(ls) then
      var r := ls + [e];
      assert Names(r)[|ls|] == e.name;
      r
    else
      ls
  }

  /** The entries of `xs` with a non-empty name, keeping only the first entry for
      each name, in order of first appearance. */
  function Distinct(xs: seq<LabelEntry>): (r: seq<LabelEntry>)
    ensures WellFormed(r)
    ensures |r| <= |xs|
    ensures forall i :: 0 <= i < |r| ==> r[i] in xs
    ensures forall j :: 0 <= j < |xs| && xs[j].name != "" ==> xs[j].name in Names(r)
    decreases |xs|
  {
    if xs == [] then []
    else
      var init := xs[..|xs| - 1];
      var d := Distinct(init);
      var r := Keep(d, xs[|xs| - 1]);
      assert xs == init + [xs[|xs| - 1]];
      assert forall j :: 0 <= j < |init| && init[j].name != "" ==> init[j].name in Names(r) by {
        forall j | 0 <= j < |init| && init[j].name != ""
          ensures init[j].name in Names(r)
        {
          NamesOfPrefix(d, r, init[j].name);
        }
      }
      r
  }

  lemma DistinctSnoc(xs: seq<LabelEntry>, x: LabelEntry)
    ensures Distinct(xs + [x]) == Keep(Distinct(xs), x)
  {
  }

  /** Collecting more candidates only ever appends to what was already collected. */
  lemma {:induction false} DistinctPrefix(xs: seq<LabelEntry>, ys: seq<LabelEntry>)
    ensures Distinct(xs) <= Distinct(xs + ys)
    decreases |ys|
  {
    if ys == [] {
      assert xs + ys == xs;
    } else {
      var init := ys[..|ys| - 1];
      var y := ys[|ys| - 1];
      assert xs + ys == (xs + init) + [y];
      DistinctPrefix(xs, init);
      DistinctSnoc(xs + init, y);
    }
  }

  /** The position of the first entry of `xs` named `n`. */
  function FirstIndex(xs: seq<LabelEntry>, n: string): (k: nat)
    requires n in Names(xs)
    ensures k < |xs| && xs[k].name == n
    ensures forall j :: 0 <= j < k ==> xs[j].name != n
    decreases |xs|
  {
    if xs[0].name == n then 0
    else
      assert Names(xs) == [xs[0].name] + Names(xs[1..]);
      1 + FirstIndex(xs[1..], n)
  }

  lemma FirstIndexSnoc(xs: seq<LabelEntry>, x: LabelEntry, n: string)
    requires n in Names(xs)
    ensures n in Names(xs + [x])
    ensures FirstIndex(xs + [x], n) == FirstIndex(xs, n)
  {
    NamesOfPrefix(xs, xs + [x], n);
    var k := FirstIndex(xs, n);
    var k' := FirstIndex(xs + [x], n);
    assert (xs + [x])[k] == xs[k];
  }

  /** `Distinct` keeps, for each name, exactly the entry where that name first
      appears, and lists them in order of first appearance. */
  lemma {:induction false} DistinctFirstOccurrences(xs: seq<LabelEntry>)
    ensures var r := Distinct(xs);
      && (forall i :: 0 <= i < |r| ==> r[i].name in Names(xs) && r[i] == xs[FirstIndex(xs, r[i].name)])
      && (forall i, j :: 0 <= i < j < |r| ==> FirstIndex(xs, r[i].name) < FirstIndex(xs, r[j].name))
    decreases |xs|
  {
    if xs != [] {
      var init := xs[..|xs| - 1];
      var x := xs[|xs| - 1];
      assert xs == init + [x];
      DistinctFirstOccurrences(init);
      var d := Distinct(init);
      var r := Distinct(xs);
      DistinctSnoc(init, x);
      forall i | 0 <= i < |d|
        ensures r[i].name in Names(xs) && r[i] == xs[FirstIndex(xs, r[i].name)]
      {
        FirstIndexSnoc(init, x, d[i].name);
        assert r[i] == d[i];
      }
      if |r| == |d| + 1 {
        assert r[|d|] == x;
        assert Names(xs)[|init|] == x.name;
        forall j | 0 <= j < |init|
          ensures xs[j].name != x.name
        {
          assert xs[j] == init[j];
        }
        assert FirstIndex(xs, x.name) == |init|;
      }
      forall i, j | 0 <= i < j < |r|
        ensures FirstIndex(xs, r[i].name) < FirstIndex(xs, r[j].name)
      {
        FirstIndexSnoc(init, x, d[i].name);
        if j < |d| {
          FirstIndexSnoc(init, x, d[j].name);
        }
      }
    }
  }
}

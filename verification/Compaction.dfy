/**
 The forgetting law of `dharma_swarm/archive.py`: which entries `compact`
 composts, and why the best entries never notice.
 */
module Compaction {
  import opened Options
  import opened Numbers
  import opened Sorting
  import opened MapElites

  const FITNESS_BEARING := ["applied", "evaluated", "shadow", "gated", "rolled_back"]

  predicate BearingStatus(status: string) { status in FITNESS_BEARING }

  predicate Bears(e: Entry) { BearingStatus(e.status) }

  function Key(e: Entry): real { -W(e) }

  /** `get_best` without a component filter and under the default weights, before it is cut to length. */
  function Ranked(values: seq<Entry>): seq<Entry> {
    SortBy(Filter(values, Bears), Key)
  }

  /** A Python subscript: negative positions count from the end, others out of range raise. */
  function Subscript(i: int, len: nat): (r: Option<nat>)
    ensures r.Some? ==> r.value < len
  {
    if 0 <= i < len then Some(i) else if 0 <= i + len < len then Some(i + len) else None
  }

  /** The rank of the threshold among `len` fitness values in ascending order. */
  function ThresholdRank(len: nat, percentile: real): Option<nat> {
    var i := Trunc(len as real * percentile);
    Subscript(if i < len - 1 then i else len - 1, len)
  }

  function WeightedValues(es: seq<Entry>): seq<real> { seq(|es|, i requires 0 <= i < |es| => W(es[i])) }

  function Identity(x: real): real { x }

  function Threshold(bearing: seq<Entry>, percentile: real): Option<real> {
    match ThresholdRank(|bearing|, percentile)
    case None => None
    case Some(k) => Some(SortBy(WeightedValues(bearing), Identity)[k])
  }

  function Timestamp(e: Entry): real { e.timestamp as real }

  /** `xs[:-a]` for `a < |xs|`, as Python reads it: a zero `a` is an end of zero, a negative one a prefix length. */
  function DropNewest<T>(xs: seq<T>, a: int): seq<T>
    requires a < |xs|
  {
    if 0 < a then xs[..|xs| - a] else if -a < |xs| then xs[..-a] else xs
  }

  function OldEntries(values: seq<Entry>, minAge: int): (r: seq<Entry>) {
    var byTime := SortBy(values, Timestamp);
    if minAge < |byTime| then DropNewest(byTime, minAge) else []
  }

  predicate HasChildren(values: seq<Entry>, id: string) {
    exists i :: 0 <= i < |values| && Truthy(values[i].parentId) && values[i].parentId.value == id
  }

  predicate Doomed(values: seq<Entry>, threshold: real, e: Entry) {
    (Bears(e) || e.status == "proposed") && W(e) < threshold && !HasChildren(values, e.id)
  }

  datatype Plan = Nothing | IndexError | Compost(candidates: seq<Entry>)

  /** What `compact` decides before it touches anything. */
  function PlanFor(values: seq<Entry>, minAge: int, percentile: real): Plan {
    if |values| < minAge || Filter(values, Bears) == [] then Nothing
    else
      match Threshold(Filter(values, Bears), percentile)
      case None => IndexError
      case Some(t) => Compost(Filter(OldEntries(values, minAge), DoomedUnder(values, t)))
  }

  function DoomedUnder(values: seq<Entry>, threshold: real): Entry -> bool { e => Doomed(values, threshold, e) }

  function AtLeast(t: real): Entry -> bool { e => t <= W(e) }

  function Below(t: real): Entry -> bool { e => W(e) < t }

  // ---- counting below a threshold ---------------------------------------

  /** At least |xs|-k values are at or above the value of rank k. */
  lemma {:induction false} AtLeastFromRank(xs: seq<real>, k: nat)
    requires k < |xs|
    ensures var t := SortBy(xs, Identity)[k]; |xs| - k <= |Filter(xs, x => t <= x)|
  {
    var s := SortBy(xs, Identity);
    var t := s[k];
    var p := (x: real) => t <= x;
    SortAscending(xs, Identity);
    SortKeepsCount(xs, Identity, p);
    assert s == s[..k] + s[k..];
    FilterConcat(s[..k], s[k..], p);
    forall i | 0 <= i < |s[k..]| ensures p(s[k..][i]) {
      assert i > 0 ==> Identity(s[k]) <= Identity(s[k + i]);
    }
    FilterAll(s[k..], p);
    FilterCongruent(xs, p, x => t <= x);
  }

  lemma {:induction false} FilterWeights(es: seq<Entry>, t: real)
    ensures |Filter(WeightedValues(es), x => t <= x)| == |Filter(es, AtLeast(t))|
  {
    if es != [] {
      var init := es[..|es| - 1];
      FilterWeights(init, t);
      assert WeightedValues(es) == WeightedValues(init) + [W(es[|es| - 1])];
      assert es == init + [es[|es| - 1]];
      FilterSnoc(WeightedValues(init), W(es[|es| - 1]), x => t <= x);
      FilterSnoc(init, es[|es| - 1], AtLeast(t));
    }
  }

  // ---- the champions -----------------------------------------------------

  /** The ranking lists the entries at or above any threshold first. */
  lemma {:induction false} RankedSplits(values: seq<Entry>, t: real)
    ensures Ranked(values) == HighPart(values, t) + LowPart(values, t)
  {
    var es := Filter(values, Bears);
    NegatedPivot(es, t);
    SplitAs(es, Key, -t, Filter(es, AtLeast(t)), Filter(es, Below(t)));
  }

  lemma {:induction false} SplitAs(es: seq<Entry>, key: Entry -> real, t: real, low: seq<Entry>, high: seq<Entry>)
    requires low == Filter(es, UpTo(key, t)) && high == Filter(es, Beyond(key, t))
    ensures SortBy(es, key) == SortBy(low, key) + SortBy(high, key)
  {
    SortSplits(es, key, t);
  }

  lemma {:induction false} NegatedPivot(es: seq<Entry>, t: real)
    ensures Filter(es, UpTo(Key, -t)) == Filter(es, AtLeast(t))
    ensures Filter(es, Beyond(Key, -t)) == Filter(es, Below(t))
  {
    forall x ensures UpTo(Key, -t)(x) == AtLeast(t)(x) && Beyond(Key, -t)(x) == Below(t)(x) {
      assert Key(x) == -W(x);
    }
    FilterCongruent(es, UpTo(Key, -t), AtLeast(t));
    FilterCongruent(es, Beyond(Key, -t), Below(t));
  }

  function HighPart(values: seq<Entry>, t: real): seq<Entry> { SortBy(Filter(Filter(values, Bears), AtLeast(t)), Key) }

  function LowPart(values: seq<Entry>, t: real): seq<Entry> { SortBy(Filter(Filter(values, Bears), Below(t)), Key) }

  /** Entry by entry, either unchanged or below the threshold and now composted. */
  ghost predicate Composted(before: seq<Entry>, after: seq<Entry>, t: real) {
    && |before| == |after|
    && forall i :: 0 <= i < |before| ==>
         after[i] == before[i] || (W(before[i]) < t && after[i] == before[i].(status := "composted"))
  }

  /** The first `n` results of `get_best` are the same. */
  ghost predicate SameTop(before: seq<Entry>, after: seq<Entry>, n: nat) {
    n <= |Ranked(before)| && n <= |Ranked(after)| && Ranked(after)[..n] == Ranked(before)[..n]
  }

  /**
   Composting below the threshold of rank k leaves the first m-k results of
   `get_best` as they were, entry by entry and in order.
   */
  lemma {:induction false} ChampionsStay(before: seq<Entry>, after: seq<Entry>, k: nat)
    requires k < |Filter(before, Bears)|
    requires Composted(before, after, SortBy(WeightedValues(Filter(before, Bears)), Identity)[k])
    ensures SameTop(before, after, |Filter(before, Bears)| - k)
  {
    var b := Filter(before, Bears);
    var t := SortBy(WeightedValues(b), Identity)[k];
    assert |b| - k <= |HighPart(before, t)| by { HighCount(b, k); }
    assert HighPart(after, t) == HighPart(before, t) by { HighStay(before, after, t); }
    RankedSplits(before, t);
    RankedSplits(after, t);
    SamePrefix(HighPart(before, t), LowPart(before, t), LowPart(after, t), |b| - k);
  }

  lemma {:induction false} SamePrefix(high: seq<Entry>, a: seq<Entry>, b: seq<Entry>, n: nat)
    requires n <= |high|
    ensures n <= |high + a| && n <= |high + b| && (high + a)[..n] == (high + b)[..n]
  {
  }

  lemma {:induction false} HighCount(es: seq<Entry>, k: nat)
    requires k < |es|
    ensures var t := SortBy(WeightedValues(es), Identity)[k]; |es| - k <= |SortBy(Filter(es, AtLeast(t)), Key)|
  {
    AtLeastFromRank(WeightedValues(es), k);
    FilterWeights(es, SortBy(WeightedValues(es), Identity)[k]);
  }

  lemma {:induction false} HighStay(before: seq<Entry>, after: seq<Entry>, t: real)
    requires Composted(before, after, t)
    ensures Filter(Filter(before, Bears), AtLeast(t)) == Filter(Filter(after, Bears), AtLeast(t))
  {
    FilterFilter(before, Bears, AtLeast(t));
    FilterFilter(after, Bears, AtLeast(t));
    var p := Both(Bears, AtLeast(t));
    forall i | 0 <= i < |before| ensures after[i] == before[i] || (!p(before[i]) && !p(after[i])) {
      if after[i] != before[i] { assert W(after[i]) == W(before[i]); }
    }
    FilterPointwise(before, after, p);
  }

  // ---- the newest --------------------------------------------------------

  /**
   An old entry has at least `minAge` others, distinct from it, that are no
   older than it.
   */
  lemma {:induction false} OldHasNewer(values: seq<Entry>, minAge: nat, e: Entry)
    requires e in OldEntries(values, minAge)
    ensures minAge <= |Filter(values, NoOlder(e))| - 1
  {
    var s := SortBy(values, Timestamp);
    var aged := OldEntries(values, minAge);
    var i :| 0 <= i < |aged| && aged[i] == e;
    SortAscending(values, Timestamp);
    assert s == s[..i] + s[i..];
    FilterConcat(s[..i], s[i..], NoOlder(e));
    forall j | 0 <= j < |s[i..]| ensures NoOlder(e)(s[i..][j]) {
      assert j > 0 ==> Timestamp(s[i]) <= Timestamp(s[i + j]);
    }
    FilterAll(s[i..], NoOlder(e));
    SortKeepsCount(values, Timestamp, NoOlder(e));
  }

  function NoOlder(e: Entry): Entry -> bool { (x: Entry) => e.timestamp <= x.timestamp }

  /** With `min_age_entries` zero nothing is ever composted: the slice `[:-0]` is empty. */
  lemma {:induction false} ZeroAgeForgetsNothing(values: seq<Entry>, percentile: real)
    ensures PlanFor(values, 0, percentile).Compost? ==> PlanFor(values, 0, percentile).candidates == []
  {
    var byTime := SortBy(values, Timestamp);
    assert OldEntries(values, 0) == [];
  }

  // ---- what is forgotten, entry by entry -------------------------------------

  /** No entry names the id as its parent. */
  ghost predicate Childless(values: seq<Entry>, id: string) {
    forall j :: 0 <= j < |values| ==>
      !(values[j].parentId.Some? && values[j].parentId.value != "" && values[j].parentId.value == id)
  }

  /**
   In the stable order by time, at least `minAge` entries come after the entry; a negative
   number asks for the first so many entries, and zero for none.
   */
  predicate StandsBefore(values: seq<Entry>, i: nat, minAge: int)
    requires i < |values|
  {
    var after := LaterCount(values, Timestamp, i, |values|);
    if 0 < minAge then minAge <= after else |values| - after <= -minAge
  }

  ghost predicate Forgettable(values: seq<Entry>, threshold: real, i: nat, minAge: int)
    requires i < |values|
  {
    && Childless(values, values[i].id)
    && W(values[i]) < threshold
    && values[i].status in ["applied", "evaluated", "shadow", "gated", "rolled_back", "proposed"]
    && StandsBefore(values, i, minAge)
  }

  lemma {:induction false} OldIff(values: seq<Entry>, i: nat, minAge: int)
    requires NoRepeats(values) && i < |values|
    ensures values[i] in OldEntries(values, minAge) <==> StandsBefore(values, i, minAge)
  {
    var s, n, p := SortBy(values, Timestamp), |values|, |values| - 1 - LaterCount(values, Timestamp, i, |values|);
    PlaceInSort(values, Timestamp, i);
    SortNoRepeats(values, Timestamp);
    if minAge < n {
      var cut := if 0 < minAge then n - minAge else if -minAge < n then -minAge else n;
      assert OldEntries(values, minAge) == s[..cut];
      PrefixIff(s, p, cut);
    }
  }

  lemma {:induction false} PrefixIff(s: seq<Entry>, p: nat, cut: nat)
    requires NoRepeats(s) && p < |s| && cut <= |s|
    ensures s[p] in s[..cut] <==> p < cut
  {
    if p < cut { assert s[..cut][p] == s[p]; }
  }

  lemma {:induction false} DoomedIff(values: seq<Entry>, threshold: real, e: Entry)
    ensures Doomed(values, threshold, e) <==>
            Childless(values, e.id) && W(e) < threshold
            && e.status in ["applied", "evaluated", "shadow", "gated", "rolled_back", "proposed"]
  {
    assert HasChildren(values, e.id) <==> !Childless(values, e.id);
    assert (Bears(e) || e.status == "proposed") <==>
           e.status in ["applied", "evaluated", "shadow", "gated", "rolled_back", "proposed"] by {
      assert ["applied", "evaluated", "shadow", "gated", "rolled_back", "proposed"] == FITNESS_BEARING + ["proposed"];
    }
  }

  /** An entry is a candidate exactly when it is forgettable; and none is one twice. */
  lemma {:induction false} CandidateIff(values: seq<Entry>, minAge: int, percentile: real, i: nat, k: nat)
    requires NoRepeats(values) && i < |values| && minAge <= |values| && k < |Filter(values, Bears)|
    requires ThresholdRank(|Filter(values, Bears)|, percentile) == Some(k)
    ensures PlanFor(values, minAge, percentile).Compost?
    ensures var t := SortBy(WeightedValues(Filter(values, Bears)), Identity)[k];
            values[i] in PlanFor(values, minAge, percentile).candidates <==> Forgettable(values, t, i, minAge)
  {
    var t := SortBy(WeightedValues(Filter(values, Bears)), Identity)[k];
    FilterMember(OldEntries(values, minAge), DoomedUnder(values, t), values[i]);
    OldIff(values, i, minAge);
    DoomedIff(values, t, values[i]);
  }

  lemma {:induction false} FilterNoRepeats<T(!new)>(xs: seq<T>, p: T -> bool)
    requires NoRepeats(xs)
    ensures NoRepeats(Filter(xs, p))
  {
    if xs != [] {
      var n := |xs| - 1;
      FilterNoRepeats(xs[..n], p);
      FilterMember(xs[..n], p, xs[n]);
      assert forall q :: 0 <= q < |Filter(xs[..n], p)| ==> Filter(xs[..n], p)[q] in Filter(xs[..n], p);
    }
  }

  lemma {:induction false} CandidatesOnce(values: seq<Entry>, minAge: int, percentile: real)
    requires NoRepeats(values) && PlanFor(values, minAge, percentile).Compost?
    ensures NoRepeats(PlanFor(values, minAge, percentile).candidates)
  {
    SortNoRepeats(values, Timestamp);
    FilterNoRepeats(OldEntries(values, minAge),
                    DoomedUnder(values, Threshold(Filter(values, Bears), percentile).value));
  }
}

/**
 The MAP-Elites grid of `dharma_swarm/archive.py`: at most one archive entry per
 cell of a feature grid, the fittest one seen. Entries are values; a cell holds
 the entry as it was when it was inserted.
 */
module MapElites {
  import opened Options
  import opened Numbers
  import opened OrderedDict
  import opened Fitness
  import opened FarthestPoint

  /** `diffLines` is the number of lines of the entry's diff; `body` stands for the fields nothing here reads. */
  datatype Entry = Entry(
    id: string, timestamp: int, parentId: Option<string>, component: string, diffLines: nat,
    fitness: FitnessScore, status: string, rollbackReason: Option<string>,
    coords: map<string, real>, merkleRoot: Option<string>, parentMerkleRoot: Option<string>, body: string)

  type Cell = (int, int, int)

  type Cells = Dict<Cell, Entry>

  function W(e: Entry): real { Weighted(e.fitness) }

  /** The bins of each dimension: at least three; none or a zero number asked for means five. */
  function Bins(n: Option<int>): int {
    var k := if n.Some? && n.value != 0 then n.value else 5;
    if 3 < k then k else 3
  }

  /** `_bin_value`: Python's `int` truncates toward zero, and only the upper end is clipped. */
  function BinValue(value: real, n: int): int {
    var b := Trunc(value * n as real);
    if b < n - 1 then b else n - 1
  }

  const FEATURES := ["dharmic_alignment", "elegance", "complexity"]

  function ComputeCoords(e: Entry): map<string, real> {
    var c := e.diffLines as real / 500.0;
    map["dharmic_alignment" := e.fitness.dharmicAlignment, "elegance" := e.fitness.elegance,
        "complexity" := if c < 1.0 then c else 1.0]
  }

  /** What `try_insert` does to an entry on the way in. */
  function WithCoords(e: Entry): Entry {
    if e.coords == map[] then e.(coords := ComputeCoords(e)) else e
  }

  function Coord(e: Entry, name: string): real {
    if name in WithCoords(e).coords then WithCoords(e).coords[name] else 0.0
  }

  function CellOf(n: int, e: Entry): Cell {
    (BinValue(Coord(e, "dharmic_alignment"), n), BinValue(Coord(e, "elegance"), n), BinValue(Coord(e, "complexity"), n))
  }

  function TryInsert(n: int, cells: Cells, e: Entry): Cells {
    var c := CellOf(n, e);
    if !Has(cells, c) || W(Get(cells, c)) < W(e) then Put(cells, c, WithCoords(e)) else cells
  }

  /** The grid after inserting the entries one after the other. */
  function Rebuilt(n: int, es: seq<Entry>): Cells {
    if es == [] then [] else TryInsert(n, Rebuilt(n, es[..|es| - 1]), es[|es| - 1])
  }

  /** Entry `i` is the earliest of the fittest entries that fall into cell `c`. */
  ghost predicate Champion(n: int, es: seq<Entry>, c: Cell, i: int) {
    && 0 <= i < |es| && CellOf(n, es[i]) == c
    && forall j :: 0 <= j < |es| && CellOf(n, es[j]) == c ==>
         W(es[j]) <= W(es[i]) && (j < i ==> W(es[j]) < W(es[i]))
  }

  /** The definition of the index: a cell is occupied by its champion, if it has any entry at all. */
  ghost predicate IsIndexOf(n: int, es: seq<Entry>, cells: Cells) {
    && Distinct(cells)
    && (forall i :: 0 <= i < |es| ==> Has(cells, CellOf(n, es[i])))
    && (forall c :: Has(cells, c) ==> HoldsChampion(n, es, cells, c))
  }

  ghost predicate HoldsChampion(n: int, es: seq<Entry>, cells: Cells, c: Cell)
    requires Has(cells, c)
  {
    exists i :: Champion(n, es, c, i) && Get(cells, c) == WithCoords(es[i])
  }

  lemma {:induction false} WithCoordsLaws(n: int, e: Entry)
    ensures WithCoords(e).coords != map[] && WithCoords(WithCoords(e)) == WithCoords(e)
    ensures W(WithCoords(e)) == W(e) && CellOf(n, WithCoords(e)) == CellOf(n, e)
  {
    assert "elegance" in ComputeCoords(e);
  }

  /** Appending an entry elsewhere leaves the champion of a cell alone. */
  lemma {:induction false} ChampionElsewhere(n: int, es: seq<Entry>, e: Entry, c: Cell, i: int)
    requires Champion(n, es, c, i) && CellOf(n, e) != c
    ensures Champion(n, es + [e], c, i)
  {
  }

  /** Appending an entry to a cell makes it the champion exactly when it is strictly fitter. */
  lemma {:induction false} ChampionChallenged(n: int, es: seq<Entry>, e: Entry, i: int)
    requires Champion(n, es, CellOf(n, e), i)
    ensures Champion(n, es + [e], CellOf(n, e), if W(es[i]) < W(e) then |es| else i)
  {
  }

  /** One insertion turns an index of some entries into the index of one entry more. */
  lemma {:induction false} InsertKeepsIndex(n: int, es: seq<Entry>, e: Entry, cells: Cells)
    requires IsIndexOf(n, es, cells)
    ensures IsIndexOf(n, es + [e], TryInsert(n, cells, e))
  {
    var r, es' := TryInsert(n, cells, e), es + [e];
    PutLaws(cells, CellOf(n, e), WithCoords(e));
    forall i | 0 <= i < |es'| ensures Has(r, CellOf(n, es'[i])) {
      assert i < |es| ==> es'[i] == es[i];
    }
    forall c | Has(r, c) ensures HoldsChampion(n, es', r, c) {
      InsertHoldsChampion(n, es, e, cells, c);
    }
  }

  lemma {:induction false} InsertHoldsChampion(n: int, es: seq<Entry>, e: Entry, cells: Cells, c: Cell)
    requires IsIndexOf(n, es, cells) && Has(TryInsert(n, cells, e), c)
    ensures HoldsChampion(n, es + [e], TryInsert(n, cells, e), c)
  {
    var r, es' := TryInsert(n, cells, e), es + [e];
    PutLaws(cells, CellOf(n, e), WithCoords(e));
    if Has(cells, c) {
      var i :| Champion(n, es, c, i) && Get(cells, c) == WithCoords(es[i]);
      WithCoordsLaws(n, es[i]);
      if c == CellOf(n, e) {
        ChampionChallenged(n, es, e, i);
        var k := if W(es[i]) < W(e) then |es| else i;
        assert Champion(n, es', c, k) && Get(r, c) == WithCoords(es'[k]);
      } else {
        ChampionElsewhere(n, es, e, c, i);
        assert Champion(n, es', c, i) && Get(r, c) == WithCoords(es'[i]);
      }
    } else {
      assert Champion(n, es', c, |es|) && Get(r, c) == WithCoords(es'[|es|]);
    }
  }

  /** Incremental insertion computes the definition, whatever the order and whatever the ties. */
  lemma {:induction false} RebuiltIsIndex(n: int, es: seq<Entry>)
    ensures IsIndexOf(n, es, Rebuilt(n, es))
  {
    if es != [] {
      var init := es[..|es| - 1];
      RebuiltIsIndex(n, init);
      InsertKeepsIndex(n, init, es[|es| - 1], Rebuilt(n, init));
      assert init + [es[|es| - 1]] == es;
    }
  }

  /** A cell is occupied exactly when some entry falls into it. */
  lemma {:induction false} OccupiedIff(n: int, es: seq<Entry>, cells: Cells, c: Cell)
    requires IsIndexOf(n, es, cells)
    ensures Has(cells, c) <==> exists i :: 0 <= i < |es| && CellOf(n, es[i]) == c
  {
    if Has(cells, c) {
      assert HoldsChampion(n, es, cells, c);
    }
  }

  /** The definition leaves no choice: two indexes of the same entries bind the same cells to the same entries. */
  lemma {:induction false} IndexIsUnique(n: int, es: seq<Entry>, a: Cells, b: Cells, c: Cell)
    requires IsIndexOf(n, es, a) && IsIndexOf(n, es, b)
    ensures Has(a, c) == Has(b, c) && (Has(a, c) ==> Get(a, c) == Get(b, c))
  {
    OccupiedIff(n, es, a, c);
    OccupiedIff(n, es, b, c);
    if Has(a, c) {
      assert HoldsChampion(n, es, a, c) && HoldsChampion(n, es, b, c);
    }
  }

  // ---- bins ---------------------------------------------------------------

  predicate Above(v: real, n: int) { -1.0 < v * n as real }

  /** A bin lies in the nominal range exactly when its coordinate is above -1/n: there is no lower clip. */
  lemma {:induction false} BinInRangeIff(v: real, n: int)
    requires 0 < n
    ensures 0 <= BinValue(v, n) <= n - 1 <==> Above(v, n)
  {
  }

  /**
   The coordinates of bin `b` of `n`: half-open intervals from zero up, the last one unbounded,
   and below zero their mirror.
   */
  predicate InBin(v: real, n: int, b: int) {
    var x := v * n as real;
    if 0.0 <= x then (0 <= b < n - 1 && b as real <= x < (b + 1) as real) || (b == n - 1 && b as real <= x)
    else (b - 1) as real < x <= b as real
  }

  /** Which bin a coordinate is sent to: the floor of v * n clipped at n - 1, or the ceiling where that is negative. */
  lemma {:induction false} BinIff(v: real, n: int, b: int)
    requires 0 < n
    ensures BinValue(v, n) == b <==> InBin(v, n, b)
  {
    ClippedIff(v * n as real, n, b);
  }

  lemma {:induction false} ClippedIff(x: real, n: int, b: int)
    requires 0 < n
    ensures (if Trunc(x) < n - 1 then Trunc(x) else n - 1) == b <==>
            if 0.0 <= x then (0 <= b < n - 1 && b as real <= x < (b + 1) as real) || (b == n - 1 && b as real <= x)
            else (b - 1) as real < x <= b as real
  {
    if 0.0 <= x {
      assert x.Floor as real <= x < (x.Floor + 1) as real;
    } else {
      assert (-x).Floor as real <= -x < ((-x).Floor + 1) as real;
      assert Trunc(x) <= 0;
    }
  }

  ghost predicate SameBin(v: real, w: real, n: int) { exists b: int :: InBin(v, n, b) && InBin(w, n, b) }

  lemma {:induction false} SameBinIff(v: real, w: real, n: int)
    requires 0 < n
    ensures BinValue(v, n) == BinValue(w, n) <==> SameBin(v, w, n)
  {
    BinIff(v, n, BinValue(v, n));
    BinIff(w, n, BinValue(v, n));
    if b: int :| InBin(v, n, b) && InBin(w, n, b) {
      BinIff(v, n, b);
      BinIff(w, n, b);
    }
  }

  /** Where the coordinates of an entry come from. */
  lemma {:induction false} CoordIs(e: Entry)
    ensures e.coords != map[] ==> forall name :: Coord(e, name) == if name in e.coords then e.coords[name] else 0.0
    ensures e.coords == map[] ==> Coord(e, "dharmic_alignment") == e.fitness.dharmicAlignment
                                  && Coord(e, "elegance") == e.fitness.elegance
    ensures e.coords == map[] ==>
              Coord(e, "complexity") == if e.diffLines < 500 then e.diffLines as real / 500.0 else 1.0
  {
  }

  /** Two entries share a cell exactly when they share a bin on the axes of alignment, elegance and complexity. */
  lemma {:induction false} SameCellIff(n: int, a: Entry, b: Entry)
    requires 0 < n
    ensures CellOf(n, a) == CellOf(n, b) <==>
            SameBin(Coord(a, "dharmic_alignment"), Coord(b, "dharmic_alignment"), n)
            && SameBin(Coord(a, "elegance"), Coord(b, "elegance"), n)
            && SameBin(Coord(a, "complexity"), Coord(b, "complexity"), n)
  {
    SameBinIff(Coord(a, "dharmic_alignment"), Coord(b, "dharmic_alignment"), n);
    SameBinIff(Coord(a, "elegance"), Coord(b, "elegance"), n);
    SameBinIff(Coord(a, "complexity"), Coord(b, "complexity"), n);
  }

  /** A cell names alignment, elegance and complexity in this order. */
  lemma {:induction false} CellAxes(n: int, e: Entry, c: Cell)
    requires 0 < n
    ensures CellOf(n, e) == c <==>
            InBin(Coord(e, "dharmic_alignment"), n, c.0) && InBin(Coord(e, "elegance"), n, c.1)
            && InBin(Coord(e, "complexity"), n, c.2)
  {
    BinIff(Coord(e, "dharmic_alignment"), n, c.0);
    BinIff(Coord(e, "elegance"), n, c.1);
    BinIff(Coord(e, "complexity"), n, c.2);
  }

  ghost predicate InBox(n: int, c: Cell) {
    0 <= c.0 < n && 0 <= c.1 < n && 0 <= c.2 < n
  }

  /**
   `coverage` is a fraction when every occupied cell is one of the n^3 nominal ones.
   */
  lemma {:induction false} CoverageAtMostOne(n: nat, cells: Cells)
    requires Distinct(cells) && forall i :: 0 <= i < |cells| ==> InBox(n, cells[i].0)
    ensures |cells| <= n * n * n
  {
    var f: seq<nat> := [];
    for k := 0 to |cells|
      invariant |f| == k && forall i :: 0 <= i < k ==> f[i] == Pack(n, cells[i].0) < n * n * n
    {
      PackBounds(n, cells[k].0);
      f := f + [Pack(n, cells[k].0)];
    }
    forall i, j | 0 <= i < j < |f| ensures f[i] != f[j] {
      if f[i] == f[j] { PackInjective(n, cells[i].0, cells[j].0); }
    }
    InRange(f, n * n * n);
  }

  function Pack(n: nat, c: Cell): int { (c.0 * n + c.1) * n + c.2 }

  lemma {:induction false} PackBounds(n: nat, c: Cell)
    requires InBox(n, c)
    ensures 0 <= Pack(n, c) < n * n * n
  {
    Digit(n, c.0, c.1, n);
    Digit(n, c.0 * n + c.1, c.2, n * n);
  }

  lemma {:induction false} Digit(n: nat, a: int, x: int, m: nat)
    requires 0 <= a < m && 0 <= x < n
    ensures 0 <= a * n + x < m * n
  {
    MulMonotone(0, a, n);
    MulMonotone(a + 1, m, n);
  }

  lemma {:induction false} MulMonotone(a: int, b: int, n: nat)
    requires a <= b
    ensures a * n <= b * n
  {
  }

  lemma {:induction false} DigitUnique(n: nat, a: int, b: int, x: int, y: int)
    requires 0 <= x < n && 0 <= y < n && a * n + x == b * n + y
    ensures a == b && x == y
  {
    if a < b {
      MulMonotone(a + 1, b, n);
    } else if b < a {
      MulMonotone(b + 1, a, n);
    }
  }

  lemma {:induction false} PackInjective(n: nat, a: Cell, b: Cell)
    requires InBox(n, a) && InBox(n, b) && Pack(n, a) == Pack(n, b)
    ensures a == b
  {
    DigitUnique(n, a.0 * n + a.1, b.0 * n + b.1, a.2, b.2);
    DigitUnique(n, a.0, b.0, a.1, b.1);
  }

  /** No coordinate of the entry maps to a bin below zero. */
  predicate AboveFloor(n: int, e: Entry) {
    forall k :: 0 <= k < 3 ==> Above(Coord(e, FEATURES[k]), n)
  }

  lemma {:induction false} InBoxIff(n: nat, e: Entry)
    requires 0 < n
    ensures InBox(n, CellOf(n, e)) <==> AboveFloor(n, e)
  {
    BinInRangeIff(Coord(e, "dharmic_alignment"), n);
    BinInRangeIff(Coord(e, "elegance"), n);
    BinInRangeIff(Coord(e, "complexity"), n);
    assert AboveFloor(n, e) <==>
           Above(Coord(e, FEATURES[0]), n) && Above(Coord(e, FEATURES[1]), n) && Above(Coord(e, FEATURES[2]), n);
  }

  /** The occupied cells are nominal ones exactly when no entry has a coordinate at or below -1/n. */
  lemma {:induction false} OccupiedInBoxIff(n: nat, es: seq<Entry>)
    requires 0 < n
    ensures (forall c :: Has(Rebuilt(n, es), c) ==> InBox(n, c)) <==> forall i :: 0 <= i < |es| ==> AboveFloor(n, es[i])
  {
    RebuiltIsIndex(n, es);
    if forall c :: Has(Rebuilt(n, es), c) ==> InBox(n, c) {
      forall i | 0 <= i < |es| ensures AboveFloor(n, es[i]) {
        OccupiedIff(n, es, Rebuilt(n, es), CellOf(n, es[i]));
        InBoxIff(n, es[i]);
      }
    }
    if forall i :: 0 <= i < |es| ==> AboveFloor(n, es[i]) {
      forall c | Has(Rebuilt(n, es), c) ensures InBox(n, c) {
        OccupiedIff(n, es, Rebuilt(n, es), c);
        var i :| 0 <= i < |es| && CellOf(n, es[i]) == c;
        InBoxIff(n, es[i]);
      }
    }
  }

  /** Then `coverage` is at most one. */
  lemma {:induction false} CoverageIsAFraction(n: nat, es: seq<Entry>)
    requires 0 < n && forall i :: 0 <= i < |es| ==> AboveFloor(n, es[i])
    ensures |Rebuilt(n, es)| <= n * n * n
  {
    var cells := Rebuilt(n, es);
    RebuiltIsIndex(n, es);
    OccupiedInBoxIff(n, es);
    forall i | 0 <= i < |cells| ensures InBox(n, cells[i].0) {
      assert Has(cells, cells[i].0);
    }
    CoverageAtMostOne(n, cells);
  }

  /** A string of length `k`. */
  function Mark(k: nat): string { seq(k, _ => '-') }

  /** `k` entries with different ids whose alignment scores are -1, -2, ... -k. */
  function Negatives(k: nat): seq<Entry> {
    if k == 0 then []
    else Negatives(k - 1) + [Entry(Mark(k), 0, None, "", 0, ZERO_FITNESS.(dharmicAlignment := -(k as real)),
                                   "applied", None, map[], None, None, "")]
  }

  /**
   Below that floor it can exceed one: with three bins, 28 entries with negative
   alignment occupy 28 cells of nominally 27.
   */
  lemma {:induction false} CoverageCanExceedOne()
    ensures |Rebuilt(3, Negatives(28))| == 28 > 3 * 3 * 3
    ensures forall i, j :: 0 <= i < j < |Negatives(28)| ==> Negatives(28)[i].id != Negatives(28)[j].id
  {
    NegativesSpreadOut(28);
    forall i, j | 0 <= i < j < |Negatives(28)| ensures Negatives(28)[i].id != Negatives(28)[j].id {
      NegativeCell(28, i);
      NegativeCell(28, j);
    }
  }

  lemma {:induction false} NegativesSpreadOut(k: nat)
    ensures |Negatives(k)| == k && |Rebuilt(3, Negatives(k))| == k
  {
    if k > 0 {
      NegativesSpreadOut(k - 1);
      NewNegative(k);
      NewCellGrows(3, Negatives(k - 1), Negatives(k)[k - 1]);
    }
  }

  lemma {:induction false} NewNegative(k: nat)
    requires 0 < k
    ensures |Negatives(k)| == k
    ensures Negatives(k)[..k - 1] == Negatives(k - 1)
    ensures forall e :: e in Negatives(k - 1) ==> CellOf(3, e) != CellOf(3, Negatives(k)[k - 1])
  {
    NegativesLength(k);
    NegativesLength(k - 1);
    NegativeCell(k, k - 1);
    forall e | e in Negatives(k - 1) ensures CellOf(3, e).0 != -3 * k {
      var i :| 0 <= i < |Negatives(k - 1)| && Negatives(k - 1)[i] == e;
      NegativeCell(k - 1, i);
    }
  }

  lemma {:induction false} NegativeCell(k: nat, i: nat)
    requires i < k
    ensures |Negatives(k)| == k && CellOf(3, Negatives(k)[i]).0 == -3 * (i + 1)
    ensures Negatives(k)[i].id == Mark(i + 1) && Negatives(k)[i].status == "applied"
  {
    if i < k - 1 {
      NegativeCell(k - 1, i);
    } else {
      NegativesLength(k - 1);
      NegativeBin(k, Negatives(k)[i]);
    }
  }

  lemma {:induction false} NegativesLength(k: nat)
    ensures |Negatives(k)| == k
  {
    if k > 0 { NegativesLength(k - 1); }
  }

  lemma {:induction false} NewCellGrows(n: int, es: seq<Entry>, e: Entry)
    requires forall i :: 0 <= i < |es| ==> CellOf(n, es[i]) != CellOf(n, e)
    ensures |TryInsert(n, Rebuilt(n, es), e)| == |Rebuilt(n, es)| + 1
  {
    RebuiltIsIndex(n, es);
    OccupiedIff(n, es, Rebuilt(n, es), CellOf(n, e));
  }

  lemma {:induction false} NegativeBin(k: nat, e: Entry)
    requires 0 < k && e.coords == map[] && e.fitness.dharmicAlignment == -(k as real)
    ensures CellOf(3, e).0 == -3 * k
  {
    assert Coord(e, "dharmic_alignment") == -(k as real);
    assert (3 * k) as real == 3.0 * k as real;
    assert Trunc(-((3 * k) as real)) == -(3 * k);
  }

  // ---- distances ----------------------------------------------------------

  /** The square of `_bin_distance`. */
  function Dist2(a: Cell, b: Cell): nat {
    Square(a.0 - b.0) + Square(a.1 - b.1) + Square(a.2 - b.2)
  }

  function Square(x: int): nat {
    SquareNonNegative(x);
    x * x
  }

  lemma {:induction false} SquareNonNegative(x: int)
    ensures 0 <= x * x
  {
  }

  lemma {:induction false} SquareRelaxed(u: int, v: int)
    ensures Square(u + v) <= 2 * Square(u) + 2 * Square(v)
    ensures Square(-u) == Square(u)
  {
    SquareNonNegative(u - v);
    assert (u + v) * (u + v) == u * u + 2 * (u * v) + v * v;
    assert (u - v) * (u - v) == u * u - 2 * (u * v) + v * v;
  }

  /** Squared distance is symmetric and satisfies the triangle inequality up to a factor of two. */
  lemma {:induction false} Dist2Relaxed()
    ensures Relaxed(Dist2)
  {
    forall x, y, z ensures RelaxedAt(Dist2, x, y, z) {
      SquareRelaxed(x.0 - y.0, y.0 - z.0);
      SquareRelaxed(x.1 - y.1, y.1 - z.1);
      SquareRelaxed(x.2 - y.2, y.2 - z.2);
    }
  }

  function Apart(x: int, y: int): nat { if x < y then y - x else x - y }

  /** The squared distance is zero for equal cells only, and grows exactly with the distance on each axis. */
  lemma {:induction false} Dist2Grows(a: Cell, b: Cell, x: int)
    ensures Dist2(a, b) == 0 <==> a == b
    ensures Dist2(a, b) < Dist2(a, (x, b.1, b.2)) <==> Apart(a.0, b.0) < Apart(a.0, x)
    ensures Dist2(a, b) < Dist2(a, (b.0, x, b.2)) <==> Apart(a.1, b.1) < Apart(a.1, x)
    ensures Dist2(a, b) < Dist2(a, (b.0, b.1, x)) <==> Apart(a.2, b.2) < Apart(a.2, x)
  {
    SquareZero(a.0 - b.0);
    SquareZero(a.1 - b.1);
    SquareZero(a.2 - b.2);
    SquareGrows(a.0 - b.0, a.0 - x);
    SquareGrows(a.1 - b.1, a.1 - x);
    SquareGrows(a.2 - b.2, a.2 - x);
  }

  lemma {:induction false} SquareZero(u: int)
    ensures Square(u) == 0 <==> u == 0
  {
    if 0 < u { MulMonotone(1, u, u); }
    if u < 0 { MulMonotone(1, -u, -u); assert u * u == -u * -u; }
  }

  lemma {:induction false} SquareGrows(u: int, v: int)
    ensures Square(u) < Square(v) <==> Apart(u, 0) < Apart(v, 0)
  {
    var p, q := Apart(u, 0), Apart(v, 0);
    assert Square(u) == p * p && Square(v) == q * q;
    if p < q {
      MulMonotone(p, q, p);
      MulMonotone(p + 1, q, q);
    } else {
      MulMonotone(q, p, q);
      MulMonotone(q, p, p);
    }
  }

  /** It counts the three axes alike: a distance along one axis is its square. */
  lemma {:induction false} Dist2OnAxis(a: Cell, d: int)
    ensures Dist2(a, (a.0 + d, a.1, a.2)) == Dist2(a, (a.0, a.1 + d, a.2)) == Dist2(a, (a.0, a.1, a.2 + d)) == d * d
    ensures forall b: Cell :: Dist2(a, b) ==
              Dist2(a, (b.0, a.1, a.2)) + Dist2(a, (a.0, b.1, a.2)) + Dist2(a, (a.0, a.1, b.2))
  {
    assert -d * -d == d * d;
  }
}

/**
 * What LayerTable and CPTTable share: the equal-length rule their
 * `__post_init__` enforces over their fields, and the `dataframe`
 * projection, `pd.DataFrame(fields).dropna(axis="rows", how="any")`.
 * A table's fields are passed here in declaration order, as
 * `self.__dict__.values()` yields them.
 */
module Frame {
  import opened Wrappers
  import opened Json

  // ---------------------------------------------------------------------
  // Construction
  // ---------------------------------------------------------------------

  /** Field `i` is the first one without a length: `len()` raises there. */
  predicate FirstUnsized(raws: seq<JsonValue>, i: int)
    requires 0 <= i < |raws|
  {
    !Sized(raws[i]) && forall j | 0 <= j < i :: Sized(raws[j])
  }

  /** The list comprehension `[len(values) for values in fields]`. */
  function RawLengths(names: seq<string>, raws: seq<JsonValue>): (r: Result<seq<nat>, Error>)
    requires |names| == |raws|
    ensures r.Ok? <==> forall i | 0 <= i < |raws| :: Sized(raws[i])
    ensures r.Ok? ==> |r.value| == |raws| && forall i | 0 <= i < |raws| :: r.value[i] == Len(raws[i])
    ensures forall i | 0 <= i < |raws| && FirstUnsized(raws, i) :: r == Err(NoLength(names[i]))
  {
    if raws == [] then Ok([])
    else if !Sized(raws[0]) then Err(NoLength(names[0]))
    else
      var rest := RawLengths(names[1..], raws[1..]);
      assert forall i | 1 <= i < |raws| && FirstUnsized(raws, i) :: FirstUnsized(raws[1..], i - 1);
      match rest
      case Err(e) => Err(e)
      case Ok(ls) => Ok([Len(raws[0])] + ls)
  }

  /** `set(raw_lengths)`. */
  function Distinct(ls: seq<nat>): set<nat> {
    set k | 0 <= k < |ls| :: ls[k]
  }

  predicate AllEqual(ls: seq<nat>) {
    forall i, j | 0 <= i < |ls| && 0 <= j < |ls| :: ls[i] == ls[j]
  }

  /** The source's test `len(set(lengths)) > 1` fails exactly when all lengths agree. */
  lemma DistinctAtMostOne(ls: seq<nat>)
    ensures |Distinct(ls)| <= 1 <==> AllEqual(ls)
  {
    if AllEqual(ls) {
      if ls == [] {
        assert Distinct(ls) == {};
      } else {
        assert Distinct(ls) == {ls[0]};
      }
    } else {
      var i, j :| 0 <= i < |ls| && 0 <= j < |ls| && ls[i] != ls[j];
      var pair := {ls[i], ls[j]};
      assert |pair| == 2;
      assert Distinct(ls) == pair + (Distinct(ls) - pair);
    }
  }

  /** The lists held by the fields, stopping at the first field that is not a list. */
  function ListColumns(names: seq<string>, raws: seq<JsonValue>): (r: Result<seq<seq<JsonValue>>, Error>)
    requires |names| == |raws|
    ensures r.Ok? <==> forall i | 0 <= i < |raws| :: raws[i].JArray?
    ensures r.Ok? ==> |r.value| == |raws| && forall i | 0 <= i < |raws| :: r.value[i] == raws[i].items
  {
    if raws == [] then Ok([])
    else if !raws[0].JArray? then Err(UnsupportedColumn(names[0]))
    else
      match ListColumns(names[1..], raws[1..])
      case Err(e) => Err(e)
      case Ok(cols) => Ok([raws[0].items] + cols)
  }

  /** All fields have a length and the lengths agree (the check `__post_init__` makes). */
  predicate SameLength(raws: seq<JsonValue>)
    requires forall i | 0 <= i < |raws| :: Sized(raws[i])
  {
    forall i, j | 0 <= i < |raws| && 0 <= j < |raws| :: Len(raws[i]) == Len(raws[j])
  }

  /** Every field holds a list and all lists have the same length. */
  predicate Buildable(raws: seq<JsonValue>) {
    && (forall i | 0 <= i < |raws| :: raws[i].JArray?)
    && (forall i, j | 0 <= i < |raws| && 0 <= j < |raws| :: |raws[i].items| == |raws[j].items|)
  }

  /**
   * Constructing a table from its field values, `names` being the field
   * names. Fails with the field of the first value that has no length, then
   * with UnequalLengths; otherwise yields the columns.
   */
  function Build(names: seq<string>, raws: seq<JsonValue>): (r: Result<seq<seq<JsonValue>>, Error>)
    requires |names| == |raws|
    ensures r.Ok? <==> Buildable(raws)
    ensures r.Ok? ==> |r.value| == |raws| && forall i | 0 <= i < |raws| :: r.value[i] == raws[i].items
    ensures forall i | 0 <= i < |raws| && FirstUnsized(raws, i) :: r == Err(NoLength(names[i]))
    ensures (forall i | 0 <= i < |raws| :: Sized(raws[i])) && !SameLength(raws) ==> r == Err(UnequalLengths)
  {
    match RawLengths(names, raws)
    case Err(e) => Err(e)
    case Ok(lengths) =>
      DistinctAtMostOne(lengths);
      if |Distinct(lengths)| > 1 then Err(UnequalLengths)
      else ListColumns(names, raws)
  }

  // ---------------------------------------------------------------------
  // The `dataframe` projection
  // ---------------------------------------------------------------------

  /** A DataFrame: its row labels and, per column, the cells in row order. */
  datatype Frame = Frame(index: seq<nat>, columns: seq<seq<JsonValue>>)

  predicate WellFormed(f: Frame) {
    forall c | 0 <= c < |f.columns| :: |f.columns[c]| == |f.index|
  }

  /** `pd.DataFrame(fields)` over columns of length `n`: rows labelled 0 .. n-1. */
  function Tabulate(columns: seq<seq<JsonValue>>, n: nat): Frame {
    Frame(seq(n, i => i), columns)
  }

  /** Row `p` has no missing (None) cell in any column. */
  predicate Complete(f: Frame, p: nat)
    requires WellFormed(f) && p < |f.index|
  {
    forall c | 0 <= c < |f.columns| :: !f.columns[c][p].JNull?
  }

  predicate Increasing(ps: seq<nat>) {
    forall k, l | 0 <= k < l < |ps| :: ps[k] < ps[l]
  }

  /** The positions among the first `n` rows that are complete, in order. */
  function Kept(f: Frame, n: nat): (ps: seq<nat>)
    requires WellFormed(f) && n <= |f.index|
    ensures |ps| <= n
    ensures forall k | 0 <= k < |ps| :: ps[k] < n
    ensures Increasing(ps)
  {
    if n == 0 then []
    else Kept(f, n - 1) + (if Complete(f, n - 1) then [n - 1] else [])
  }

  lemma {:induction false} KeptMembers(f: Frame, n: nat)
    requires WellFormed(f) && n <= |f.index|
    ensures forall p: nat :: p in Kept(f, n) <==> p < n && Complete(f, p)
  {
    if n > 0 {
      KeptMembers(f, n - 1);
    }
  }

  lemma {:induction false} KeptCount(f: Frame, n: nat)
    requires WellFormed(f) && n <= |f.index|
    ensures |Kept(f, n)| == n <==> forall p | 0 <= p < n :: Complete(f, p)
  {
    if n > 0 {
      KeptCount(f, n - 1);
    }
  }

  lemma {:induction false} KeptWhenComplete(f: Frame, n: nat)
    requires WellFormed(f) && n <= |f.index|
    requires forall p | 0 <= p < n :: Complete(f, p)
    ensures Kept(f, n) == seq(n, i => i)
  {
    if n > 0 {
      KeptWhenComplete(f, n - 1);
    }
  }

  /** The rows at positions `ps`, with their labels. */
  function Select(f: Frame, ps: seq<nat>): Frame
    requires WellFormed(f)
    requires forall k | 0 <= k < |ps| :: ps[k] < |f.index|
  {
    Frame(
      seq(|ps|, k requires 0 <= k < |ps| => f.index[ps[k]]),
      seq(|f.columns|, c requires 0 <= c < |f.columns| =>
        seq(|ps|, k requires 0 <= k < |ps| => f.columns[c][ps[k]])))
  }

  /** `dropna(axis="rows", how="any")`. */
  function DropNa(f: Frame): (r: Frame)
    requires WellFormed(f)
    ensures WellFormed(r) && |r.columns| == |f.columns|
    ensures forall k | 0 <= k < |r.index| :: Complete(r, k)
    ensures |r.index| <= |f.index|
    ensures |r.index| == |f.index| <==> forall p | 0 <= p < |f.index| :: Complete(f, p)
  {
    var ps := Kept(f, |f.index|);
    KeptMembers(f, |f.index|);
    KeptCount(f, |f.index|);
    assert forall k | 0 <= k < |ps| :: ps[k] in ps;
    Select(f, ps)
  }

  /** Dropping the incomplete rows twice is dropping them once. */
  lemma DropNaIdempotent(f: Frame)
    requires WellFormed(f)
    ensures DropNa(DropNa(f)) == DropNa(f)
  {
    var g := DropNa(f);
    KeptWhenComplete(g, |g.index|);
    var h := DropNa(g);
    assert h.index == g.index;
    forall c | 0 <= c < |g.columns|
      ensures h.columns[c] == g.columns[c]
    {
    }
  }

  /**
   * The projection of a freshly built table of `n` rows keeps exactly the
   * labels of the complete rows, in ascending order, each row with its
   * original cells.
   */
  lemma DropNaOfTable(columns: seq<seq<JsonValue>>, n: nat)
    requires forall c | 0 <= c < |columns| :: |columns[c]| == n
    ensures WellFormed(Tabulate(columns, n))
    ensures forall i: nat :: i in DropNa(Tabulate(columns, n)).index <==> i < n && Complete(Tabulate(columns, n), i)
    ensures Increasing(DropNa(Tabulate(columns, n)).index)
    ensures forall c, k | 0 <= c < |columns| && 0 <= k < |DropNa(Tabulate(columns, n)).index| ::
      DropNa(Tabulate(columns, n)).columns[c][k] == columns[c][DropNa(Tabulate(columns, n)).index[k]]
  {
    var f := Tabulate(columns, n);
    KeptMembers(f, n);
    var g := DropNa(f);
    assert g.index == Kept(f, n);
  }
}

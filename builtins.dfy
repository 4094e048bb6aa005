/** The Python built-ins that the column specification relies on, modelled on
    the kinds of values a spreadsheet row holds here. Each function says what
    the built-in does on these values, including the exception it raises. */
module Builtins {

  /** A cell of an input row or of an output row. `Null` is Python's None, so a
      key that is present with None differs from a key that is absent. */
  datatype Cell = Null | Int(i: int) | Str(s: string)

  /** The exceptions the modelled built-ins raise. */
  datatype Error = IndexError | TypeError

  /** A value, or the exception raised while computing it. */
  datatype Result<T> = Ok(value: T) | Err(error: Error)

  /** `d.get(k, default)`: the entry when `k` is present (even when it is
      `Null`), otherwise `default`. */
  function Get(d: map<string, Cell>, k: string, default: Cell): Cell {
    if k in d then d[k] else default
  }

  /** `list.pop()` on a freshly built list: the last element; IndexError on []. */
  function Pop(s: seq<Cell>): Result<Cell> {
    if |s| == 0 then Err(IndexError) else Ok(s[|s| - 1])
  }

  // ---------------------------------------------------------------------
  // sum(s) over cells

  predicate AllInts(s: seq<Cell>) {
    forall i :: 0 <= i < |s| ==> s[i].Int?
  }

  /** `sum(s)` continued from the running total `acc`: Python adds from the
      left, and `int + x` raises TypeError unless `x` is an int. */
  function SumFrom(acc: int, s: seq<Cell>): Result<Cell>
    decreases |s|
  {
    if s == [] then Ok(Int(acc))
    else if s[0].Int? then SumFrom(acc + s[0].i, s[1..])
    else Err(TypeError)
  }

  /** Reference total of a list of ints, summed from the right. */
  function IntTotal(s: seq<Cell>): int
    requires AllInts(s)
  {
    if s == [] then 0 else s[0].i + IntTotal(s[1..])
  }

  /** `sum` succeeds exactly on lists of ints and then gives their total. */
  lemma {:induction false} SumFromTotal(acc: int, s: seq<Cell>)
    ensures SumFrom(acc, s) == if AllInts(s) then Ok(Int(acc + IntTotal(s))) else Err(TypeError)
    decreases |s|
  {
    if s != [] {
      assert AllInts(s) <==> s[0].Int? && AllInts(s[1..]) by {
        if s[0].Int? && AllInts(s[1..]) {
          forall i | 0 <= i < |s| ensures s[i].Int? {
            if i > 0 { assert s[i] == s[1..][i - 1]; }
          }
        }
      }
      if s[0].Int? {
        SumFromTotal(acc + s[0].i, s[1..]);
      }
    }
  }

  // ---------------------------------------------------------------------
  // sep.join(s) over cells

  predicate AllStrs(s: seq<Cell>) {
    forall i :: 0 <= i < |s| ==> s[i].Str?
  }

  /** `sep.join(ss)` on a list of strings. */
  function JoinStrs(sep: string, ss: seq<string>): string {
    if |ss| == 0 then ""
    else if |ss| == 1 then ss[0]
    else ss[0] + sep + JoinStrs(sep, ss[1..])
  }

  /** Joining a concatenation puts one separator between the two joins. */
  lemma {:induction false} JoinStrsAppend(sep: string, a: seq<string>, b: seq<string>)
    requires a != [] && b != []
    ensures JoinStrs(sep, a + b) == JoinStrs(sep, a) + sep + JoinStrs(sep, b)
  {
    if |a| == 1 {
      assert (a + b)[1..] == b;
    } else {
      assert (a + b)[1..] == a[1..] + b;
      JoinStrsAppend(sep, a[1..], b);
    }
  }

  /** The length of a join: every piece plus one separator between neighbours. */
  lemma {:induction false} JoinStrsLength(sep: string, ss: seq<string>)
    requires ss != []
    ensures |JoinStrs(sep, ss)| == TotalLength(ss) + (|ss| - 1) * |sep|
  {
    if |ss| > 1 {
      JoinStrsLength(sep, ss[1..]);
    }
  }

  function TotalLength(ss: seq<string>): nat {
    if ss == [] then 0 else |ss[0]| + TotalLength(ss[1..])
  }

  function Strs(s: seq<Cell>): seq<string>
    requires AllStrs(s)
  {
    seq(|s|, i requires 0 <= i < |s| => s[i].s)
  }

  /** `sep.join(s)`: TypeError unless every element is a str. */
  function StrJoin(sep: string, s: seq<Cell>): Result<Cell> {
    if AllStrs(s) then Ok(Str(JoinStrs(sep, Strs(s)))) else Err(TypeError)
  }

  // ---------------------------------------------------------------------
  // sum(ls, start) over lists

  /** `sum(ls, start)` on a list of lists: `start + ls[0] + ls[1] + ...`,
      added from the left. */
  function SumLists<T>(ls: seq<seq<T>>, start: seq<T>): seq<T> {
    if ls == [] then start else SumLists(ls[1..], start + ls[0])
  }

  /** Reference flattening `ls[0] + (ls[1] + ...)`: the lists in order. */
  function Flatten<T>(ls: seq<seq<T>>): seq<T> {
    if ls == [] then [] else ls[0] + Flatten(ls[1..])
  }

  /** Summing lists from `start` is `start` followed by the flattening. */
  lemma {:induction false} SumListsFlatten<T>(ls: seq<seq<T>>, start: seq<T>)
    ensures SumLists(ls, start) == start + Flatten(ls)
  {
    if ls != [] {
      SumListsFlatten(ls[1..], start + ls[0]);
      assert start + ls[0] + Flatten(ls[1..]) == start + (ls[0] + Flatten(ls[1..]));
    }
  }

  /** Flattening a concatenation concatenates the flattenings. */
  lemma {:induction false} FlattenAppend<T>(a: seq<seq<T>>, b: seq<seq<T>>)
    ensures Flatten(a + b) == Flatten(a) + Flatten(b)
  {
    if a == [] {
      assert a + b == b;
    } else {
      assert (a + b)[1..] == a[1..] + b;
      FlattenAppend(a[1..], b);
      assert Flatten(a + b) == a[0] + (Flatten(a[1..]) + Flatten(b));
      assert a[0] + (Flatten(a[1..]) + Flatten(b)) == (a[0] + Flatten(a[1..])) + Flatten(b);
    }
  }

  // ---------------------------------------------------------------------
  // str.find and str.partition

  /** `sep` occurs in `s` starting at index `i`. */
  predicate OccursAt(s: string, sep: string, i: int) {
    0 <= i && i + |sep| <= |s| && s[i..i + |sep|] == sep
  }

  /** `i` is the first occurrence of `sep` in `s`. */
  predicate FirstAt(s: string, sep: string, i: int) {
    OccursAt(s, sep, i) && forall j :: 0 <= j < i ==> !OccursAt(s, sep, j)
  }

  function FindFrom(s: string, sep: string, start: nat): (r: int)
    requires start <= |s|
    ensures r == -1 || (start <= r && OccursAt(s, sep, r))
    ensures forall j :: start <= j && (r == -1 || j < r) ==> !OccursAt(s, sep, j)
    decreases |s| - start
  {
    if OccursAt(s, sep, start) then start
    else if start == |s| then -1
    else FindFrom(s, sep, start + 1)
  }

  /** `s.find(sep)`: the index of the first occurrence, -1 when there is none. */
  function Find(s: string, sep: string): (r: int)
    ensures r == -1 <==> forall i :: !OccursAt(s, sep, i)
    ensures r != -1 ==> FirstAt(s, sep, r)
  {
    FindFrom(s, sep, 0)
  }

  /** A string has at most one first occurrence of `sep`. */
  lemma FirstAtUnique(s: string, sep: string, i: int, j: int)
    requires FirstAt(s, sep, i) && FirstAt(s, sep, j)
    ensures i == j
  {
  }

  /** The part of `s` before the first occurrence `i` of `sep` holds no `sep`. */
  lemma PrefixBeforeFirst(s: string, sep: string, i: int)
    requires sep != "" && FirstAt(s, sep, i)
    ensures Find(s[..i], sep) == -1
  {
    forall j ensures !OccursAt(s[..i], sep, j) {
      if OccursAt(s[..i], sep, j) {
        assert s[..i][j..j + |sep|] == s[j..j + |sep|];
        assert OccursAt(s, sep, j);
      }
    }
  }

  /** `s.partition(sep)` (Python raises ValueError for an empty `sep`): split
      around the first occurrence; `(s, "", "")` when there is none. */
  function Partition(s: string, sep: string): (r: (string, string, string))
    requires sep != ""
    ensures r.0 + r.1 + r.2 == s
    ensures r.0 + r.1 <= s
    ensures Find(r.0, sep) == -1
    ensures Find(s, sep) == -1 ==> r.0 == s
    ensures Find(s, sep) != -1 ==> r.0 == s[..Find(s, sep)]
    ensures r.1 == if Find(s, sep) == -1 then "" else sep
  {
    var i := Find(s, sep);
    if i == -1 then (s, "", "")
    else
      PrefixBeforeFirst(s, sep, i);
      assert s[..i] + sep + s[i + |sep|..] == s;
      (s[..i], sep, s[i + |sep|..])
  }
}

/** Shared vocabulary: optional values, HTTP error results, Python string
    stripping, and ordering of rows. */
module Common {

  datatype Option<T> = None | Some(value: T)

  /** An `HTTPException(status_code, detail)` raised by a route. */
  datatype HttpError = HttpError(status: int, detail: string)

  datatype Result<T> = Ok(value: T) | Err(error: HttpError)

  /** The value of an optional field that was set, otherwise `keep`. */
  function Pick<T>(o: Option<T>, keep: T): T {
    if o.Some? then o.value else keep
  }

  // ---------------------------------------------------------------------
  // Sequences

  predicate NoDup<T(==)>(s: seq<T>) {
    forall i, j :: 0 <= i < j < |s| ==> s[i] != s[j]
  }

  /**
   * `xs.remove(x)` on a duplicate-free list. Python's `remove` drops only the
   * first occurrence and this drops every one; the two agree because the
   * label lists it is applied to never hold an id twice (`Consistent`).
   */
  function Remove<T(==,!new)>(s: seq<T>, x: T): (r: seq<T>)
    ensures forall y :: y in r <==> y in s && y != x
    ensures NoDup(s) ==> NoDup(r)
    ensures |r| <= |s|
    ensures x !in s ==> r == s
    ensures NoDup(s) && x in s ==> |r| == |s| - 1
  {
    if s == [] then []
    else if s[0] == x then
      assert NoDup(s) ==> x !in s[1..];
      Remove(s[1..], x)
    else
      var rest := Remove(s[1..], x);
      assert NoDup(s) ==> s[0] !in s[1..];
      [s[0]] + rest
  }

  // ---------------------------------------------------------------------
  // Python's str.strip()

  /** Python's `str.isspace()` for one character. */
  predicate IsSpace(c: char) {
    var n := c as int;
    n == 32 || 9 <= n <= 13 || 28 <= n <= 31 || n == 0x85 || n == 0xA0 || n == 0x1680
    || 0x2000 <= n <= 0x200A || n == 0x2028 || n == 0x2029 || n == 0x202F || n == 0x205F || n == 0x3000
  }

  function StripLeft(s: string): (r: string)
    ensures |r| <= |s| && r == s[|s| - |r|..]
    ensures r == [] || !IsSpace(r[0])
    ensures forall i :: 0 <= i < |s| - |r| ==> IsSpace(s[i])
  {
    if s != [] && IsSpace(s[0]) then StripLeft(s[1..]) else s
  }

  function StripRight(s: string): (r: string)
    ensures |r| <= |s| && r == s[..|r|]
    ensures r == [] || !IsSpace(r[|r| - 1])
    ensures forall i :: |r| <= i < |s| ==> IsSpace(s[i])
  {
    if s != [] && IsSpace(s[|s| - 1]) then StripRight(s[..|s| - 1]) else s
  }

  /** Python's `s.strip()`. */
  function Strip(s: string): string {
    StripRight(StripLeft(s))
  }

  /** `not s.strip()`: the string is empty or all whitespace. */
  predicate IsBlank(s: string) {
    Strip(s) == ""
  }

  lemma {:induction false} StripRightKeeps(s: string)
    requires s != [] && !IsSpace(s[0])
    ensures StripRight(s) != []
    decreases |s|
  {
    if IsSpace(s[|s| - 1]) {
      StripRightKeeps(s[..|s| - 1]);
    }
  }

  lemma BlankIffAllSpace(s: string)
    ensures IsBlank(s) <==> forall i :: 0 <= i < |s| ==> IsSpace(s[i])
  {
    var l := StripLeft(s);
    if l != [] {
      StripRightKeeps(l);
      assert s[|s| - |l|] == l[0];
    }
  }

  /** The stripped text has no surrounding whitespace, so stripping again
      changes nothing. */
  lemma StripIdempotent(s: string)
    ensures var t := Strip(s); t == [] || (!IsSpace(t[0]) && !IsSpace(t[|t| - 1]))
    ensures Strip(Strip(s)) == Strip(s)
  {
    var l := StripLeft(s);
    var t := StripRight(l);
    if t != [] {
      assert t[0] == l[0];
    }
  }

  // ---------------------------------------------------------------------
  // Case

  /** `str.lower()` (and SQLite's `lower`) on ASCII letters; other characters
      are kept. */
  function Lower(s: string): (r: string)
    ensures |r| == |s|
    ensures forall i :: 0 <= i < |s| ==> r[i] == LowerChar(s[i])
  {
    if s == [] then [] else [LowerChar(s[0])] + Lower(s[1..])
  }

  function LowerChar(c: char): (r: char)
    ensures 'A' <= c <= 'Z' ==> r as int == c as int + 32
    ensures !('A' <= c <= 'Z') ==> r == c
  {
    if 'A' <= c <= 'Z' then (c as int + 32) as char else c
  }

  lemma LowerConcat(a: string, b: string)
    ensures Lower(a + b) == Lower(a) + Lower(b)
  {
    assert forall i :: 0 <= i < |a + b| ==> Lower(a + b)[i] == (Lower(a) + Lower(b))[i];
  }

  // ---------------------------------------------------------------------
  // Row order

  predicate Increasing(s: seq<int>) {
    forall i, j :: 0 <= i < j < |s| ==> s[i] < s[j]
  }

  /** The keys of `s` in [lo, hi), ascending: the order in which a plain
      scan of a table returns its rows. */
  function KeysInRange(s: set<int>, lo: int, hi: int): (r: seq<int>)
    ensures Increasing(r)
    ensures forall x :: x in r <==> x in s && lo <= x < hi
    ensures forall i :: 0 <= i < |r| ==> lo <= r[i] < hi
    decreases hi - lo
  {
    if lo >= hi then []
    else (if lo in s then [lo] else []) + KeysInRange(s, lo + 1, hi)
  }

  /** A comparison usable by a sort: total and transitive. */
  ghost predicate TotalPreorder<T(!new)>(le: (T, T) -> bool) {
    (forall a, b :: le(a, b) || le(b, a))
    && (forall a, b, c :: le(a, b) && le(b, c) ==> le(a, c))
  }

  predicate SortedBy<T>(s: seq<T>, le: (T, T) -> bool) {
    forall i, j :: 0 <= i < j < |s| ==> le(s[i], s[j])
  }

  lemma SortedByAt<T>(s: seq<T>, le: (T, T) -> bool, i: int, j: int)
    requires SortedBy(s, le) && 0 <= i < j < |s|
    ensures le(s[i], s[j])
  {
  }

  function Insert<T(==)>(x: T, s: seq<T>, le: (T, T) -> bool): (r: seq<T>)
    ensures multiset(r) == multiset(s) + multiset{x}
  {
    if s == [] then [x]
    else if le(x, s[0]) then [x] + s
    else
      assert s == [s[0]] + s[1..];
      [s[0]] + Insert(x, s[1..], le)
  }

  /** `ORDER BY` on a key: the rows rearranged so that `le` holds between
      every earlier and later row. */
  function SortBy<T(==)>(s: seq<T>, le: (T, T) -> bool): (r: seq<T>)
    ensures multiset(r) == multiset(s) && |r| == |s|
  {
    if s == [] then []
    else
      assert s == [s[0]] + s[1..];
      Insert(s[0], SortBy(s[1..], le), le)
  }

  lemma {:induction false} InsertSorted<T(!new)>(x: T, s: seq<T>, le: (T, T) -> bool)
    requires TotalPreorder(le) && SortedBy(s, le)
    ensures SortedBy(Insert(x, s, le), le)
  {
    if s != [] && !le(x, s[0]) {
      InsertSorted(x, s[1..], le);
      var r := Insert(x, s[1..], le);
      assert multiset(r) == multiset(s[1..]) + multiset{x};
      forall j | 0 <= j < |r| ensures le(s[0], r[j]) {
        assert r[j] in multiset(r);
        if r[j] != x {
          assert r[j] in multiset(s[1..]);
          var k :| 0 <= k < |s[1..]| && s[1..][k] == r[j];
          assert s[k + 1] == r[j];
        }
      }
    }
  }

  lemma {:induction false} SortBySorted<T(!new)>(s: seq<T>, le: (T, T) -> bool)
    requires TotalPreorder(le)
    ensures SortedBy(SortBy(s, le), le)
  {
    if s != [] {
      SortBySorted(s[1..], le);
      InsertSorted(s[0], SortBy(s[1..], le), le);
    }
  }

  /** Sorting keeps exactly the rows it was given. */
  lemma SortByMembers<T>(s: seq<T>, le: (T, T) -> bool)
    ensures forall x :: x in SortBy(s, le) <==> x in s
  {
    var r := SortBy(s, le);
    forall x ensures x in r <==> x in s {
      assert x in r <==> x in multiset(r);
      assert x in s <==> x in multiset(s);
    }
  }

  /** Increasing ids are distinct. */
  lemma IncreasingNoDup(s: seq<int>)
    requires Increasing(s)
    ensures NoDup(s)
  {
  }

  lemma {:induction false} NoDupCount<T>(s: seq<T>, x: T)
    requires NoDup(s)
    ensures multiset(s)[x] <= 1
  {
    if s != [] {
      assert s == [s[0]] + s[1..];
      assert NoDup(s[1..]);
      NoDupCount(s[1..], x);
      if x == s[0] {
        assert x !in s[1..];
      }
    }
  }

  /** A rearrangement of a list without repeats has no repeats. */
  lemma PermutationNoDup<T>(ws: seq<T>, s: seq<T>)
    requires NoDup(ws) && multiset(s) == multiset(ws)
    ensures NoDup(s)
  {
    forall i, j | 0 <= i < j < |s| ensures s[i] != s[j] {
      if s[i] == s[j] {
        assert multiset(s)[s[i]] >= 2 by {
          assert s == s[..i] + [s[i]] + s[i + 1..];
          assert s[i + 1..][j - i - 1] == s[j];
        }
        NoDupCount(ws, s[i]);
      }
    }
  }

  /** A list without repeats of the members of a set has the set's size. */
  lemma {:induction false} NoDupCard(ks: set<int>, s: seq<int>)
    requires NoDup(s) && forall x :: x in s <==> x in ks
    ensures |ks| == |s|
  {
    if s != [] {
      assert NoDup(s[1..]);
      assert s[0] !in s[1..];
      NoDupCard(ks - {s[0]}, s[1..]);
    } else {
      forall x ensures x !in ks {
        assert x !in s;
      }
      assert ks == {};
    }
  }
}

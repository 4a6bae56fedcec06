/** The global entry search: an optional text filter, an any-of label
    filter, the starred and completed filters, newest first, at most 100
    rows, each with its note's date. */
module Search {
  import opened Common
  import opened Dates
  import opened Db
  import Entries

  const Limit := 100
  const UnknownDate := "Unknown"

  // ---------------------------------------------------------------------
  // SQL LIKE

  /** SQL `LIKE` without an escape character: `%` matches any run of
      characters, `_` any one character, every other character itself. */
  predicate Like(p: string, s: string)
    decreases |p| + |s|
  {
    if p == [] then s == []
    else if p[0] == '%' then Like(p[1..], s) || (s != [] && Like(p, s[1..]))
    else if p[0] == '_' then s != [] && Like(p[1..], s[1..])
    else s != [] && p[0] == s[0] && Like(p[1..], s[1..])
  }

  /** `w` occurs in `s` at position `i`. */
  predicate At(s: string, w: string, i: int) {
    0 <= i && i + |w| <= |s| && s[i..i + |w|] == w
  }

  /** `s` holds `w` as a contiguous piece. */
  predicate Contains(s: string, w: string) {
    exists i :: 0 <= i <= |s| && At(s, w, i)
  }

  /** `w` has none of LIKE's wildcards. */
  predicate NoWildcards(w: string) {
    forall i :: 0 <= i < |w| ==> w[i] != '%' && w[i] != '_'
  }

  lemma {:induction false} PercentMatchesAll(s: string)
    ensures Like("%", s)
    decreases |s|
  {
    if s != [] {
      PercentMatchesAll(s[1..]);
    }
  }

  /** A wildcard-free word followed by `%` matches exactly the strings that
      start with it. */
  lemma {:induction false} PrefixLike(w: string, s: string)
    requires NoWildcards(w)
    ensures Like(w + "%", s) <==> |w| <= |s| && s[..|w|] == w
    decreases |w|
  {
    if w == [] {
      assert w + "%" == "%";
      PercentMatchesAll(s);
    } else {
      assert (w + "%")[1..] == w[1..] + "%";
      assert NoWildcards(w[1..]);
      if s != [] {
        PrefixLike(w[1..], s[1..]);
        if |w| <= |s| && s[..|w|] == w {
          assert s[1..][..|w| - 1] == w[1..];
        }
        if |w| - 1 <= |s| - 1 && s[1..][..|w| - 1] == w[1..] && s[0] == w[0] {
          assert s[..|w|] == [s[0]] + s[1..][..|w| - 1];
        }
      }
    }
  }

  /** A leading `%` tries every suffix. */
  lemma {:induction false} LeadingPercent(p: string, s: string)
    ensures Like("%" + p, s) <==> exists i :: 0 <= i <= |s| && Like(p, s[i..])
    decreases |s|
  {
    assert ("%" + p)[1..] == p;
    if s == [] {
      assert s[0..] == s;
    } else {
      LeadingPercent(p, s[1..]);
      assert s[0..] == s;
      if exists i :: 0 <= i <= |s| && Like(p, s[i..]) {
        var i :| 0 <= i <= |s| && Like(p, s[i..]);
        if i > 0 {
          assert s[1..][i - 1..] == s[i..];
        }
      }
      if exists i :: 0 <= i <= |s[1..]| && Like(p, s[1..][i..]) {
        var i :| 0 <= i <= |s[1..]| && Like(p, s[1..][i..]);
        assert s[1..][i..] == s[i + 1..];
      }
    }
  }

  /** `%w%` is a substring test when `w` has no wildcards. */
  lemma SubstringLike(w: string, s: string)
    requires NoWildcards(w)
    ensures Like("%" + w + "%", s) <==> Contains(s, w)
  {
    assert "%" + w + "%" == "%" + (w + "%");
    LeadingPercent(w + "%", s);
    forall i | 0 <= i <= |s| ensures Like(w + "%", s[i..]) <==> At(s, w, i) {
      PrefixLike(w, s[i..]);
      if i + |w| <= |s| {
        assert s[i..][..|w|] == s[i..i + |w|];
      }
    }
    if Contains(s, w) {
      var i :| 0 <= i <= |s| && At(s, w, i);
      assert Like(w + "%", s[i..]);
    }
  }

  /** The text filter as written: `content ILIKE '%' || q.strip() || '%'`,
      both sides lowered. */
  predicate TextMatchAsWritten(q: string, content: string) {
    Like(Lower("%" + Strip(q) + "%"), Lower(content))
  }

  /** The text filter as intended: the stripped query occurs in the content,
      ignoring ASCII case. */
  predicate TextMatch(q: string, content: string) {
    Contains(Lower(content), Lower(Strip(q)))
  }

  /** For a query without `%` or `_` the two filters agree. */
  lemma TextMatchAgrees(q: string, content: string)
    requires NoWildcards(Strip(q))
    ensures TextMatchAsWritten(q, content) <==> TextMatch(q, content)
  {
    var w := Strip(q);
    LowerConcat("%", w);
    LowerConcat("%" + w, "%");
    assert Lower("%") == "%";
    assert NoWildcards(Lower(w));
    SubstringLike(Lower(w), Lower(content));
  }

  /** A `%` in the query is a wildcard: searching for "50%" finds an entry
      whose content is "500", which does not contain "50%". */
  lemma PercentInQueryOverMatches()
    ensures TextMatchAsWritten("50%", "500") && !TextMatch("50%", "500")
  {
    StripWithoutSpaces("50%");
    AsWrittenExample();
    NotContainedExample();
  }

  lemma AsWrittenExample()
    requires Strip("50%") == "50%"
    ensures TextMatchAsWritten("50%", "500")
  {
    assert "%" + "50%" + "%" == "%50%%";
    LowerFixed("%50%%");
    LowerFixed("500");
    LikeExample();
  }

  lemma NotContainedExample()
    requires Strip("50%") == "50%"
    ensures !TextMatch("50%", "500")
  {
    LowerFixed("500");
    LowerFixed("50%");
  }

  /** `%50%%` matches "500". */
  lemma LikeExample()
    ensures Like("%50%%", "500")
  {
    PercentMatchesAll("0");
    assert "%%"[1..] == "%";
    assert Like("%%", "0");
    assert "0%%"[1..] == "%%" && "00"[1..] == "0";
    assert Like("0%%", "00");
    assert "50%%"[1..] == "0%%" && "500"[1..] == "00";
    assert Like("50%%", "500");
    assert "%50%%"[1..] == "50%%";
  }

  /** A string with no whitespace at its ends is its own strip. */
  lemma StripWithoutSpaces(s: string)
    requires s != [] && !IsSpace(s[0]) && !IsSpace(s[|s| - 1])
    ensures Strip(s) == s
  {
  }

  /** A string without capital letters is its own lowercase. */
  lemma LowerFixed(s: string)
    requires forall i :: 0 <= i < |s| ==> !('A' <= s[i] <= 'Z')
    ensures Lower(s) == s
  {
  }

  // ---------------------------------------------------------------------
  // The label-id list

  /** `s.split(sep)` */
  function SplitOn(s: string, sep: char): (parts: seq<string>)
    ensures |parts| >= 1
    ensures forall i :: 0 <= i < |parts| ==> sep !in parts[i]
  {
    if s == [] then [""]
    else
      var rest := SplitOn(s[1..], sep);
      if s[0] == sep then [""] + rest
      else [[s[0]] + rest[0]] + rest[1..]
  }

  /** `sep.join(parts)` */
  function Join(parts: seq<string>, sep: char): string
    requires |parts| >= 1
  {
    if |parts| == 1 then parts[0] else parts[0] + [sep] + Join(parts[1..], sep)
  }

  /** Splitting loses nothing: joining the pieces gives the string back. */
  lemma {:induction false} JoinSplit(s: string, sep: char)
    ensures Join(SplitOn(s, sep), sep) == s
    decreases |s|
  {
    if s != [] {
      JoinSplit(s[1..], sep);
      var rest := SplitOn(s[1..], sep);
      if s[0] != sep {
        var parts := [[s[0]] + rest[0]] + rest[1..];
        if |rest| > 1 {
          assert parts[1..] == rest[1..];
        }
      }
    }
  }

  function DigitValue(c: char): int {
    c as int - '0' as int
  }

  predicate AllDigits(s: string) {
    forall i :: 0 <= i < |s| ==> '0' <= s[i] <= '9'
  }

  /** The decimal value of a digit string. */
  function DecimalValue(s: string): (n: nat)
    requires AllDigits(s)
  {
    if s == [] then 0 else 10 * DecimalValue(s[..|s| - 1]) + DigitValue(s[|s| - 1])
  }

  /** `int(s)` on an already stripped string: an optional sign and at least
      one ASCII digit; anything else raises `ValueError` (`None`). */
  function ParseInt(s: string): (r: Option<int>)
    ensures r.Some? ==> s != []
    ensures r.Some? <==>
      ((s != [] && AllDigits(s)) || (|s| >= 2 && (s[0] == '-' || s[0] == '+') && AllDigits(s[1..])))
    ensures AllDigits(s) && s != [] ==> r == Some(DecimalValue(s))
    ensures |s| >= 2 && s[0] == '-' && AllDigits(s[1..]) ==> r == Some(0 - DecimalValue(s[1..]))
    ensures |s| >= 2 && s[0] == '+' && AllDigits(s[1..]) ==> r == Some(DecimalValue(s[1..]))
  {
    if s != [] && (s[0] == '-' || s[0] == '+') then
      var body := s[1..];
      if body != [] && AllDigits(body) then Some(if s[0] == '-' then 0 - DecimalValue(body) else DecimalValue(body))
      else None
    else if s != [] && AllDigits(s) then Some(DecimalValue(s))
    else None
  }

  /** A piece of the list that `int` rejects. */
  predicate PieceFails(p: string) {
    !IsBlank(p) && ParseInt(Strip(p)).None?
  }

  /** A piece of the list that `int` reads as `x`. */
  predicate PieceGives(p: string, x: int) {
    !IsBlank(p) && ParseInt(Strip(p)) == Some(x)
  }

  /** `[int(p.strip()) for p in parts if p.strip()]`, or `None` when an
      `int` raises. */
  function ParseIds(parts: seq<string>): (r: Option<seq<int>>)
    ensures r.Some? ==> |r.value| <= |parts|
    ensures r.None? <==> exists p :: p in parts && PieceFails(p)
    ensures r.Some? ==> forall x :: x in r.value <==> exists p :: p in parts && PieceGives(p, x)
  {
    if parts == [] then Some([])
    else
      var rest := ParseIds(parts[1..]);
      assert forall p :: p in parts <==> p == parts[0] || p in parts[1..];
      if IsBlank(parts[0]) then rest
      else match ParseInt(Strip(parts[0]))
        case None =>
          assert PieceFails(parts[0]);
          None
        case Some(n) =>
          assert PieceGives(parts[0], n) && !PieceFails(parts[0]);
          if rest.None? then None else Some([n] + rest.value)
  }

  /** The ids the label filter applies, or `None` when it does not apply: no
      parameter, a blank one, an id that is not an integer, or no ids. */
  function LabelFilter(labelIds: Option<string>): (r: Option<seq<int>>)
    ensures r.Some? ==> |r.value| > 0 && labelIds.Some? && !IsBlank(labelIds.value)
    ensures r.Some? ==> ParseIds(SplitOn(labelIds.value, ',')) == r
  {
    if labelIds.None? || IsBlank(labelIds.value) then None
    else match ParseIds(SplitOn(labelIds.value, ','))
      case None => None
      case Some(ids) => if ids == [] then None else Some(ids)
  }

  // ---------------------------------------------------------------------
  // The query

  /** The filters of one search request. */
  datatype Request = Request(q: Option<string>, labelIds: Option<string>,
                             isImportant: Option<bool>, isCompleted: Option<bool>)

  predicate TextFilterOn(q: Option<string>) {
    q.Some? && !IsBlank(q.value)
  }

  /** Entry `e` passes every filter of request `r`; the text filter is the
      `ILIKE` pattern as the route builds it. */
  predicate Matches(t: Tables, e: int, r: Request) {
    e in t.entries
    && (TextFilterOn(r.q) ==> TextMatchAsWritten(r.q.value, t.entries[e].content))
    && (LabelFilter(r.labelIds).Some? ==>
          exists l :: l in t.entries[e].labels && l in t.labels && l in LabelFilter(r.labelIds).value)
    && (r.isImportant.Some? ==> t.entries[e].isImportant == Entries.Flag(r.isImportant.value))
    && (r.isCompleted.Some? ==> t.entries[e].isCompleted == Entries.Flag(r.isCompleted.value))
  }

  /** The matching entries, newest first (scan order among equal times). */
  function Ranked(t: Tables, r: Request): (es: seq<int>)
    ensures forall e :: e in es <==> 1 <= e < t.nextId && Matches(t, e, r)
    ensures SortedBy(es, Entries.CreatedDesc(t)) && NoDup(es)
  {
    var hits := Filter(Scan(t.entries, t.nextId), e => Matches(t, e, r));
    var le := Entries.CreatedDesc(t);
    assert TotalPreorder(le);
    SortBySorted(hits, le);
    SortByMembers(hits, le);
    IncreasingNoDup(hits);
    PermutationNoDup(hits, SortBy(hits, le));
    SortBy(hits, le)
  }

  /** For a query without `%` or `_` the search finds exactly the matching
      entries whose content holds the query, ignoring case. */
  lemma RankedWithoutWildcards(t: Tables, r: Request, e: int)
    requires TextFilterOn(r.q) && NoWildcards(Strip(r.q.value))
    ensures e in Ranked(t, r) <==>
      1 <= e < t.nextId && e in t.entries && TextMatch(r.q.value, t.entries[e].content)
      && Matches(t, e, r.(q := None))
  {
    MatchesWithoutWildcards(t, r, e);
  }

  /** The filter of an entry, for a query without `%` or `_`: the content
      holds the query, and the other filters pass. */
  lemma MatchesWithoutWildcards(t: Tables, r: Request, e: int)
    requires TextFilterOn(r.q) && NoWildcards(Strip(r.q.value))
    ensures Matches(t, e, r) <==>
      e in t.entries && TextMatch(r.q.value, t.entries[e].content) && Matches(t, e, r.(q := None))
  {
    if e in t.entries {
      TextMatchAgrees(r.q.value, t.entries[e].content);
    }
  }

  /** `search_entries(request)` on the tables `t`: the ids of the result
      rows. At most 100; every one matches; newest first; and an entry that
      matches but is missing was cut by the limit, so it is no newer than
      any row returned. */
  function SearchOf(t: Tables, r: Request): (es: seq<int>)
    requires Consistent(t)
    ensures |es| <= Limit && NoDup(es)
    ensures forall e :: e in es ==> Matches(t, e, r)
    ensures SortedBy(es, Entries.CreatedDesc(t))
    ensures forall e :: Matches(t, e, r) && e !in es ==>
      |es| == Limit && forall i :: 0 <= i < |es| ==> Entries.CreatedKey(t, es[i]) >= Entries.CreatedKey(t, e)
  {
    var all := Ranked(t, r);
    var es := Take(all, Limit);
    forall e | Matches(t, e, r) && e !in es
      ensures |es| == Limit && forall i :: 0 <= i < |es| ==> Entries.CreatedKey(t, es[i]) >= Entries.CreatedKey(t, e)
    {
      TakeKeepsFirst(all, Entries.CreatedDesc(t), Limit, e);
    }
    es
  }

  /** `.limit(n)` */
  function Take<T>(s: seq<T>, n: nat): (r: seq<T>)
    ensures |r| <= n && (|s| <= n ==> r == s) && (|s| > n ==> |r| == n)
    ensures forall i :: 0 <= i < |r| ==> r[i] == s[i]
    ensures forall x :: x in r ==> x in s
    ensures NoDup(s) ==> NoDup(r)
  {
    if |s| <= n then s else s[..n]
  }

  /** What the limit cuts from a sorted list comes after everything kept. */
  lemma TakeKeepsFirst<T>(s: seq<T>, le: (T, T) -> bool, n: nat, x: T)
    requires SortedBy(s, le) && x in s && x !in Take(s, n)
    ensures |Take(s, n)| == n && forall i :: 0 <= i < n ==> le(Take(s, n)[i], x)
  {
    var j :| 0 <= j < |s| && s[j] == x;
    forall i | 0 <= i < n ensures le(Take(s, n)[i], x) {
      assert le(s[i], s[j]);
    }
  }

  // ---------------------------------------------------------------------
  // Result rows

  /** A result row: the entry and the date of its note. */
  datatype Hit = Hit(entryId: int, date: string)

  /** `entry.daily_note.date if entry.daily_note else 'Unknown'` */
  function DateText(t: Tables, e: int): (s: string)
    ensures e in t.entries && t.entries[e].noteId in t.notes ==> s == Format(t.notes[t.entries[e].noteId].date)
    ensures !(e in t.entries && t.entries[e].noteId in t.notes) ==> s == UnknownDate
  {
    if e in t.entries && t.entries[e].noteId in t.notes then Format(t.notes[t.entries[e].noteId].date)
    else UnknownDate
  }

  function HitsOf(t: Tables, es: seq<int>): (hs: seq<Hit>)
    ensures |hs| == |es|
    ensures forall i :: 0 <= i < |es| ==> hs[i] == Hit(es[i], DateText(t, es[i]))
  {
    if es == [] then [] else HitsOf(t, es[..|es| - 1]) + [Hit(es[|es| - 1], DateText(t, es[|es| - 1]))]
  }

  /** The route `search_entries`: run the query, then build one row per
      result. */
  method SearchEntries(db: Store, r: Request) returns (hs: seq<Hit>)
    requires db.Valid()
    ensures hs == HitsOf(db.State(), SearchOf(db.State(), r))
    ensures |hs| <= Limit
  {
    var t := db.State();
    var es := SearchOf(t, r);
    hs := BuildHits(t, es);
  }

  /** The loop that turns each result entry into a row. */
  method BuildHits(t: Tables, es: seq<int>) returns (hs: seq<Hit>)
    ensures hs == HitsOf(t, es)
  {
    hs := [];
    var i := 0;
    while i < |es|
      invariant 0 <= i <= |es|
      invariant hs == HitsOf(t, es[..i])
    {
      assert es[..i + 1][..i] == es[..i];
      hs := hs + [Hit(es[i], DateText(t, es[i]))];
      i := i + 1;
    }
    assert es[..i] == es;
  }
}

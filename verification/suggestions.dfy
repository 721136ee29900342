/**
 * The pure part of the exercise search: which queries are searched at all,
 * and how a payload array from the lookup service becomes the list of at
 * most eight suggestions (ExerciseSearch.tsx, lines 41 and 71-76).
 */
module Suggestions {
  import opened Text
  import opened Wrappers

  /** Suggestions kept after filtering: `slice(0, 8)`. */
  const MaxSuggestions: nat := 8
  /** Shortest trimmed query that is searched. */
  const MinQueryLength: nat := 2

  /** The value of an exercise's `name` property as it arrives in the payload. */
  datatype NameValue =
    | Str(text: string)
    /** missing, `null`, `false` or `0`: `ex.name &&` stops here */
    | Falsy
    /** a non-zero number, `true`, an array or an object: it has no `toLowerCase` */
    | OtherTruthy

  /** An exercise record of the lookup service. */
  datatype Exercise = Exercise(
    id: string,
    name: NameValue,
    category: Option<string>,
    primaryMuscles: Option<seq<string>>,
    secondaryMuscles: Option<seq<string>>)

  /** One element of the JSON array the lookup service returns. */
  datatype Candidate =
    /** `null`: reading `ex.name` throws a TypeError */
    | NullItem
    /** any other value that is not an object, or an array: its `name` is `undefined` */
    | Scalar
    | Record(ex: Exercise)

  /** The outcome of `data.filter(...)`: the kept records, or the TypeError one callback threw. */
  datatype FilterResult = TypeError | Kept(list: seq<Exercise>)

  /** `!query || query.trim().length < 2`: such a query is not searched. */
  predicate IsShortQuery(query: string)
  {
    query == [] || Utf16Length(Trim(query)) < MinQueryLength
  }

  /**
   * The guard stated without `length`: a query is skipped exactly when,
   * trimmed, it is empty or a single character of the Basic Multilingual
   * Plane. One character above U+FFFF is two code units and is searched.
   */
  lemma ShortQueryIff(query: string)
    ensures IsShortQuery(query) <==>
      Trim(query) == [] || (|Trim(query)| == 1 && Trim(query)[0] as int < 0x1_0000)
  {
    Utf16ShorterThanTwo(Trim(query));
    if query == [] {
      var i :| TrimmedAt(query, Trim(query), i);
    }
  }

  /** `query.trim().toLowerCase()` */
  function SearchTerm(query: string): string
  {
    ToLower(Trim(query))
  }

  /** The exercise has a non-empty string name: `ex.name` is a truthy string. */
  predicate Named(ex: Exercise)
  {
    ex.name.Str? && ex.name.text != []
  }

  /** `ex.name && ex.name.toLowerCase().includes(term)` is truthy. */
  predicate Matches(term: string, ex: Exercise)
  {
    Named(ex) && Contains(ToLower(ex.name.text), term)
  }

  /** The filter callback `ex => ex.name && ...` keeps this element. */
  predicate Keeps(term: string, c: Candidate)
  {
    c.Record? && Matches(term, c.ex)
  }

  /** The filter callback throws on this element. */
  predicate Throws(c: Candidate)
  {
    c.NullItem? || (c.Record? && c.ex.name.OtherTruthy?)
  }

  /** Every element of `list` has a non-empty string name containing `term`, ignoring case. */
  predicate AllMatch(term: string, list: seq<Exercise>)
  {
    forall k :: 0 <= k < |list| ==> Matches(term, list[k])
  }

  /** `data.filter(callback)` for a callback that keeps only records, those whose exercise satisfies `keep`. */
  function FilterBy(keep: Exercise -> bool, data: seq<Candidate>): (r: seq<Exercise>)
    ensures |r| <= |data|
    ensures forall k :: 0 <= k < |r| ==> keep(r[k])
  {
    if data == [] then []
    else (if data[0].Record? && keep(data[0].ex) then [data[0].ex] else []) + FilterBy(keep, data[1..])
  }

  predicate Increasing(idx: seq<nat>)
  {
    forall a, b :: 0 <= a < b < |idx| ==> idx[a] < idx[b]
  }

  /** Position `i` of `data` holds a record whose exercise `keep` accepts. */
  predicate Accepted(keep: Exercise -> bool, data: seq<Candidate>, i: nat)
  {
    i < |data| && data[i].Record? && keep(data[i].ex)
  }

  /** `idx` lists, in increasing order, positions of `data` holding records `keep` accepts, and `r` those records. */
  predicate KeptAt(keep: Exercise -> bool, data: seq<Candidate>, idx: seq<nat>, r: seq<Exercise>)
  {
    && |idx| == |r|
    && Increasing(idx)
    && (forall k :: 0 <= k < |idx| ==> Accepted(keep, data, idx[k]) && data[idx[k]].ex == r[k])
  }

  /** Every position in `idx` moved one to the right. */
  function Shift(idx: seq<nat>): (r: seq<nat>)
    ensures |r| == |idx| && forall k :: 0 <= k < |idx| ==> r[k] == idx[k] + 1
  {
    seq(|idx|, k requires 0 <= k < |idx| => idx[k] + 1)
  }

  lemma KeptAtShift(keep: Exercise -> bool, data: seq<Candidate>, idx: seq<nat>, r: seq<Exercise>)
    requires data != [] && KeptAt(keep, data[1..], idx, r)
    ensures KeptAt(keep, data, Shift(idx), r)
  {
    var sh := Shift(idx);
    forall k | 0 <= k < |idx|
      ensures Accepted(keep, data, sh[k]) && data[sh[k]].ex == r[k]
    {
      assert Accepted(keep, data[1..], idx[k]);
      assert data[sh[k]] == data[1..][idx[k]];
    }
  }

  lemma KeptAtCons(keep: Exercise -> bool, data: seq<Candidate>, idx: seq<nat>, r: seq<Exercise>)
    requires data != [] && data[0].Record? && keep(data[0].ex)
    requires KeptAt(keep, data[1..], idx, r)
    ensures KeptAt(keep, data, [0] + Shift(idx), [data[0].ex] + r)
  {
    KeptAtShift(keep, data, idx, r);
    var sh := Shift(idx);
    var idx' := [0] + sh;
    var r' := [data[0].ex] + r;
    forall a, b | 0 <= a < b < |idx'|
      ensures idx'[a] < idx'[b]
    {
      assert idx'[b] == sh[b - 1];
      if a > 0 {
        assert idx'[a] == sh[a - 1];
      }
    }
    forall k | 0 <= k < |idx'|
      ensures Accepted(keep, data, idx'[k]) && data[idx'[k]].ex == r'[k]
    {
      if k > 0 {
        assert idx'[k] == sh[k - 1] && r'[k] == r[k - 1];
      }
    }
  }

  /** The first `n` kept positions carry the first `n` kept records. */
  lemma KeptAtPrefix(keep: Exercise -> bool, data: seq<Candidate>, idx: seq<nat>, r: seq<Exercise>, n: nat)
    requires KeptAt(keep, data, idx, r) && n <= |idx|
    ensures KeptAt(keep, data, idx[..n], r[..n])
  {
    assert forall k :: 0 <= k < n ==> idx[..n][k] == idx[k] && r[..n][k] == r[k];
  }

  /**
   * `FilterBy` keeps exactly the records `keep` accepts, in payload order:
   * its k-th element is the k-th accepted record of `data`, and no accepted
   * record is skipped.
   */
  lemma {:induction false} FilterIndices(keep: Exercise -> bool, data: seq<Candidate>) returns (idx: seq<nat>)
    ensures KeptAt(keep, data, idx, FilterBy(keep, data))
    ensures forall j :: 0 <= j < |data| && Accepted(keep, data, j) ==> j in idx
  {
    if data == [] {
      idx := [];
    } else {
      var rest := FilterIndices(keep, data[1..]);
      var tail := FilterBy(keep, data[1..]);
      var sh := Shift(rest);
      ShiftCovers(keep, data, rest);
      if data[0].Record? && keep(data[0].ex) {
        assert FilterBy(keep, data) == [data[0].ex] + tail;
        KeptAtCons(keep, data, rest, tail);
        idx := [0] + sh;
      } else {
        assert FilterBy(keep, data) == tail;
        KeptAtShift(keep, data, rest, tail);
        idx := sh;
      }
    }
  }

  lemma ShiftCovers(keep: Exercise -> bool, data: seq<Candidate>, rest: seq<nat>)
    requires data != []
    requires forall j :: 0 <= j < |data| - 1 && Accepted(keep, data[1..], j) ==> j in rest
    ensures forall j :: 1 <= j < |data| && Accepted(keep, data, j) ==> j in Shift(rest)
  {
    var sh := Shift(rest);
    forall j | 1 <= j < |data| && Accepted(keep, data, j)
      ensures j in sh
    {
      assert Accepted(keep, data[1..], j - 1);
      var k :| 0 <= k < |rest| && rest[k] == j - 1;
      assert sh[k] == j;
    }
  }

  /** The exercises the search callback keeps for `term`, in payload order (assuming none throws). */
  function Filter(term: string, data: seq<Candidate>): (r: seq<Exercise>)
    ensures |r| <= |data|
    ensures AllMatch(term, r)
  {
    FilterBy(ex => Matches(term, ex), data)
  }

  /** The filter-and-slice pipeline for an already trimmed, lower-cased search term. */
  function SuggestionsFor(term: string, data: seq<Candidate>): FilterResult
  {
    if exists j :: 0 <= j < |data| && Throws(data[j]) then TypeError
    else
      var matches := Filter(term, data);
      Kept(if |matches| <= MaxSuggestions then matches else matches[..MaxSuggestions])
  }

  /**
   * Lines 71-76: filter the payload on the trimmed, lower-cased query and
   * keep the first eight. A callback that throws makes the whole call throw.
   */
  function FilterSuggestions(query: string, data: seq<Candidate>): (r: FilterResult)
    ensures r.TypeError? <==> exists j :: 0 <= j < |data| && Throws(data[j])
    ensures r.Kept? ==> |r.list| <= MaxSuggestions && AllMatch(SearchTerm(query), r.list)
    ensures r.Kept? ==> r.list <= Filter(SearchTerm(query), data)
    ensures r.Kept? ==> (|r.list| == MaxSuggestions || r.list == Filter(SearchTerm(query), data))
  {
    SuggestionsFor(SearchTerm(query), data)
  }

  /**
   * The suggestions are the first min(8, number of matches) matching
   * records of the payload, in payload order: every matching element is
   * either kept or comes after the eighth kept one.
   */
  lemma FirstMatches(query: string, data: seq<Candidate>) returns (idx: seq<nat>)
    requires FilterSuggestions(query, data).Kept?
    ensures KeptAt(ex => Matches(SearchTerm(query), ex), data, idx, FilterSuggestions(query, data).list)
    ensures forall j :: 0 <= j < |data| && Keeps(SearchTerm(query), data[j]) ==>
              j in idx || (|idx| == MaxSuggestions && idx[MaxSuggestions - 1] < j)
  {
    var term := SearchTerm(query);
    var keep := ex => Matches(term, ex);
    var matches := Filter(term, data);
    var all := FilterIndices(keep, data);
    var list := FilterSuggestions(query, data).list;
    assert list == matches[..|list|];
    KeptAtPrefix(keep, data, all, matches, |list|);
    idx := all[..|list|];
    forall j | 0 <= j < |data| && Keeps(term, data[j])
      ensures j in idx || (|idx| == MaxSuggestions && idx[MaxSuggestions - 1] < j)
    {
      assert Accepted(keep, data, j);
      var p :| 0 <= p < |all| && all[p] == j;
      if p < |list| {
        assert idx[p] == j;
      } else {
        assert idx[MaxSuggestions - 1] == all[MaxSuggestions - 1];
      }
    }
  }

  /** Queries that differ only in letter case have the same search term and the same UTF-16 length once trimmed. */
  lemma SearchTermCaseInsensitive(q1: string, q2: string)
    requires ToLower(q1) == ToLower(q2)
    ensures SearchTerm(q1) == SearchTerm(q2)
    ensures Utf16Length(Trim(q1)) == Utf16Length(Trim(q2))
  {
    TrimLowerCommute(q1);
    TrimLowerCommute(q2);
    ToLowerIdempotent(Trim(q1));
    ToLowerIdempotent(Trim(q2));
    Utf16LowerInvariant(Trim(q1));
    Utf16LowerInvariant(Trim(q2));
  }

  /** Queries that differ only in letter case are searched alike and give the same suggestions. */
  lemma CaseInsensitive(q1: string, q2: string, data: seq<Candidate>)
    requires ToLower(q1) == ToLower(q2)
    ensures IsShortQuery(q1) <==> IsShortQuery(q2)
    ensures FilterSuggestions(q1, data) == FilterSuggestions(q2, data)
  {
    SearchTermCaseInsensitive(q1, q2);
    assert |q1| == |ToLower(q1)| == |q2|;
    assert FilterSuggestions(q1, data) == SuggestionsFor(SearchTerm(q1), data);
  }

  /** Lower-casing does not change a string's UTF-16 length. */
  lemma {:induction false} Utf16LowerInvariant(s: string)
    ensures Utf16Length(ToLower(s)) == Utf16Length(s)
  {
    if s != [] {
      assert ToLower(s)[1..] == ToLower(s[1..]);
      Utf16LowerInvariant(s[1..]);
    }
  }
}

/**
 * The document list of src/pages/AllDocuments.tsx: the search and filter
 * predicate, and the comparator-driven sort by size or by date. Dates are
 * their millisecond timestamps (`getTime()`).
 */
module AllDocuments {
  import opened Text

  /** The fields of a listed document the page reads. */
  datatype Doc = Doc(
    name: string,
    tags: seq<string>,
    status: string,
    docType: string,
    size: int,
    createdAt: int,
    updatedAt: int)

  /** The name or some tag contains the search term, letter case ignored. */
  predicate MatchesSearch(d: Doc, term: string) {
    Contains(ToLower(d.name), ToLower(term)) ||
    exists i | 0 <= i < |d.tags| :: Contains(ToLower(d.tags[i]), ToLower(term))
  }

  /** `statusFilter === 'all' || doc.status === statusFilter`, and likewise for the type. */
  predicate MatchesFilter(value: string, filter: string) {
    filter == "all" || value == filter
  }

  /** The predicate of `filteredDocuments`. */
  predicate Matches(d: Doc, term: string, statusFilter: string, typeFilter: string) {
    MatchesSearch(d, term) && MatchesFilter(d.status, statusFilter) && MatchesFilter(d.docType, typeFilter)
  }

  /** `docs.filter(...)`. */
  function FilterDocs(docs: seq<Doc>, term: string, statusFilter: string, typeFilter: string): (r: seq<Doc>)
    ensures |r| <= |docs|
    decreases |docs|
  {
    if |docs| == 0 then []
    else
      (if Matches(docs[0], term, statusFilter, typeFilter) then [docs[0]] else []) +
      FilterDocs(docs[1..], term, statusFilter, typeFilter)
  }

  /** The value of `sortBy`, as the comparator's `switch` reads it. */
  datatype SortKey = ByName | ByCreated | ByUpdated | BySize | Unordered

  function ParseSortKey(sortBy: string): (k: SortKey)
    ensures k == Unordered <==> sortBy !in {"name", "created", "updated", "size"}
  {
    if sortBy == "name" then ByName
    else if sortBy == "created" then ByCreated
    else if sortBy == "updated" then ByUpdated
    else if sortBy == "size" then BySize
    else Unordered
  }

  /** The number the comparator subtracts for a numeric key (`b.x - a.x`). */
  function KeyOf(d: Doc, key: SortKey): int
    requires key == ByCreated || key == ByUpdated || key == BySize
  {
    match key
    case ByCreated => d.createdAt
    case ByUpdated => d.updatedAt
    case BySize => d.size
  }

  /**
   * Insert `x` into a list sorted largest first: before the first element with
   * a strictly smaller key, so after every element with an equal key.
   */
  function InsertDesc(x: Doc, s: seq<Doc>, key: SortKey): (r: seq<Doc>)
    requires key == ByCreated || key == ByUpdated || key == BySize
    ensures |r| == |s| + 1
    decreases |s|
  {
    if |s| == 0 then [x]
    else if KeyOf(x, key) > KeyOf(s[0], key) then [x] + s
    else [s[0]] + InsertDesc(x, s[1..], key)
  }

  /**
   * A stable sort by the comparator `b.x - a.x`: larger first, ties in input
   * order (`Array.prototype.sort` is stable).
   */
  function SortDesc(s: seq<Doc>, key: SortKey): (r: seq<Doc>)
    requires key == ByCreated || key == ByUpdated || key == BySize
    ensures |r| == |s|
    decreases |s|
  {
    if |s| == 0 then [] else InsertDesc(s[|s| - 1], SortDesc(s[..|s| - 1], key), key)
  }

  /** The sort step: numeric keys sort largest first, an unrecognised key (comparator 0) keeps the order. */
  function SortDocs(docs: seq<Doc>, key: SortKey): seq<Doc>
    requires key != ByName
  {
    if key == Unordered then docs else SortDesc(docs, key)
  }

  /** What the page lists. */
  function VisibleDocuments(docs: seq<Doc>, term: string, statusFilter: string, typeFilter: string,
                            key: SortKey): seq<Doc>
    requires key != ByName
  {
    SortDocs(FilterDocs(docs, term, statusFilter, typeFilter), key)
  }

  predicate SortedDesc(s: seq<Doc>, key: SortKey)
    requires key == ByCreated || key == ByUpdated || key == BySize
  {
    forall i, j :: 0 <= i < j < |s| ==> KeyOf(s[i], key) >= KeyOf(s[j], key)
  }

  // ---------------------------------------------------------------------------
  // Filtering

  /** A document is listed exactly when it is in the input and matches. */
  lemma {:induction false} FilterMembership(docs: seq<Doc>, term: string, statusFilter: string, typeFilter: string, d: Doc)
    ensures d in FilterDocs(docs, term, statusFilter, typeFilter) <==> d in docs && Matches(d, term, statusFilter, typeFilter)
    decreases |docs|
  {
    if |docs| > 0 {
      FilterMembership(docs[1..], term, statusFilter, typeFilter, d);
      assert docs == [docs[0]] + docs[1..];
    }
  }

  /** The filtered list is a subset of the input, as a multiset. */
  lemma {:induction false} FilterIsSubMultiset(docs: seq<Doc>, term: string, statusFilter: string, typeFilter: string)
    ensures multiset(FilterDocs(docs, term, statusFilter, typeFilter)) <= multiset(docs)
    decreases |docs|
  {
    if |docs| > 0 {
      FilterIsSubMultiset(docs[1..], term, statusFilter, typeFilter);
      assert docs == [docs[0]] + docs[1..];
    }
  }

  /** The empty term matches every document. */
  lemma EmptyTermMatches(d: Doc)
    ensures MatchesSearch(d, "")
  {
    assert ToLower("") == "";
    assert OccursAt(ToLower(d.name), "", 0);
  }

  /** No search term and both filters on `all`: every document is kept, in order. */
  lemma {:induction false} NoFilterKeepsAll(docs: seq<Doc>)
    ensures FilterDocs(docs, "", "all", "all") == docs
    decreases |docs|
  {
    if |docs| > 0 {
      EmptyTermMatches(docs[0]);
      NoFilterKeepsAll(docs[1..]);
    }
  }

  /** Filtering twice with the same settings is filtering once. */
  lemma {:induction false} FilterIdempotent(docs: seq<Doc>, term: string, statusFilter: string, typeFilter: string)
    ensures FilterDocs(FilterDocs(docs, term, statusFilter, typeFilter), term, statusFilter, typeFilter) ==
      FilterDocs(docs, term, statusFilter, typeFilter)
    decreases |docs|
  {
    if |docs| > 0 {
      FilterIdempotent(docs[1..], term, statusFilter, typeFilter);
      var f := FilterDocs(docs, term, statusFilter, typeFilter);
      if Matches(docs[0], term, statusFilter, typeFilter) {
        assert f == [docs[0]] + FilterDocs(docs[1..], term, statusFilter, typeFilter);
        assert f[0] == docs[0] && f[1..] == FilterDocs(docs[1..], term, statusFilter, typeFilter);
      } else {
        assert f == FilterDocs(docs[1..], term, statusFilter, typeFilter);
      }
    }
  }

  /** The search ignores letter case: an upper-case term finds the same documents as its lower-case form. */
  lemma SearchIgnoresCase(d: Doc, term: string)
    ensures MatchesSearch(d, term) <==> MatchesSearch(d, ToLower(term))
  {
    LowerIdempotent(term);
  }

  lemma LowerIdempotent(s: string)
    ensures ToLower(ToLower(s)) == ToLower(s)
  {
    assert forall i :: 0 <= i < |s| ==> LowerChar(LowerChar(s[i])) == LowerChar(s[i]);
  }

  // ---------------------------------------------------------------------------
  // Sorting

  lemma {:induction false} InsertDescMultiset(x: Doc, s: seq<Doc>, key: SortKey)
    requires key == ByCreated || key == ByUpdated || key == BySize
    ensures multiset(InsertDesc(x, s, key)) == multiset(s) + multiset{x}
    decreases |s|
  {
    if |s| > 0 && KeyOf(x, key) <= KeyOf(s[0], key) {
      InsertDescMultiset(x, s[1..], key);
      assert s == [s[0]] + s[1..];
    }
  }

  lemma {:induction false} InsertDescSorted(x: Doc, s: seq<Doc>, key: SortKey)
    requires key == ByCreated || key == ByUpdated || key == BySize
    requires SortedDesc(s, key)
    ensures SortedDesc(InsertDesc(x, s, key), key)
    ensures |s| > 0 ==> InsertDesc(x, s, key)[0] == s[0] || InsertDesc(x, s, key)[0] == x
    decreases |s|
  {
    if |s| > 0 && KeyOf(x, key) <= KeyOf(s[0], key) {
      InsertDescSorted(x, s[1..], key);
      var r := InsertDesc(x, s[1..], key);
      InsertDescMultiset(x, s[1..], key);
      forall j | 0 <= j < |r|
        ensures KeyOf(s[0], key) >= KeyOf(r[j], key)
      {
        assert r[j] in multiset(r);
        assert r[j] == x || r[j] in multiset(s[1..]);
        if r[j] != x {
          var k :| 0 <= k < |s[1..]| && s[1..][k] == r[j];
          assert s[k + 1] == r[j];
        }
      }
    }
  }

  /** The size (or date) sort puts larger values first. */
  lemma {:induction false} SortDescSorted(s: seq<Doc>, key: SortKey)
    requires key == ByCreated || key == ByUpdated || key == BySize
    ensures SortedDesc(SortDesc(s, key), key)
    decreases |s|
  {
    if |s| > 0 {
      SortDescSorted(s[..|s| - 1], key);
      InsertDescSorted(s[|s| - 1], SortDesc(s[..|s| - 1], key), key);
    }
  }

  /** Sorting only reorders: the same documents, each as often. */
  lemma {:induction false} SortDescPermutation(s: seq<Doc>, key: SortKey)
    requires key == ByCreated || key == ByUpdated || key == BySize
    ensures multiset(SortDesc(s, key)) == multiset(s)
    decreases |s|
  {
    if |s| > 0 {
      SortDescPermutation(s[..|s| - 1], key);
      InsertDescMultiset(s[|s| - 1], SortDesc(s[..|s| - 1], key), key);
      assert s == s[..|s| - 1] + [s[|s| - 1]];
    }
  }

  /** Inserting an element no larger than all the others puts it last. */
  lemma {:induction false} InsertSmallestAtEnd(x: Doc, s: seq<Doc>, key: SortKey)
    requires key == ByCreated || key == ByUpdated || key == BySize
    requires forall i :: 0 <= i < |s| ==> KeyOf(x, key) <= KeyOf(s[i], key)
    ensures InsertDesc(x, s, key) == s + [x]
    decreases |s|
  {
    if |s| > 0 {
      InsertSmallestAtEnd(x, s[1..], key);
      assert s == [s[0]] + s[1..];
    }
  }

  /** A list already in order comes back unchanged, so documents with equal keys keep their input order. */
  lemma {:induction false} SortedInputUnchanged(s: seq<Doc>, key: SortKey)
    requires key == ByCreated || key == ByUpdated || key == BySize
    requires SortedDesc(s, key)
    ensures SortDesc(s, key) == s
    decreases |s|
  {
    if |s| > 0 {
      var init := s[..|s| - 1];
      SortedInputUnchanged(init, key);
      InsertSmallestAtEnd(s[|s| - 1], init, key);
      assert init + [s[|s| - 1]] == s;
    }
  }

  /** What the page lists is the matching documents, larger first when sorting by size. */
  lemma VisibleBySize(docs: seq<Doc>, term: string, statusFilter: string, typeFilter: string, d: Doc)
    ensures SortedDesc(VisibleDocuments(docs, term, statusFilter, typeFilter, BySize), BySize)
    ensures d in VisibleDocuments(docs, term, statusFilter, typeFilter, BySize) <==>
      d in docs && Matches(d, term, statusFilter, typeFilter)
  {
    var f := FilterDocs(docs, term, statusFilter, typeFilter);
    SortDescSorted(f, BySize);
    SortDescPermutation(f, BySize);
    FilterMembership(docs, term, statusFilter, typeFilter, d);
    assert d in SortDesc(f, BySize) <==> d in multiset(SortDesc(f, BySize));
  }

  /** An unrecognised sort key lists the matching documents in input order. */
  lemma UnrecognisedKeyKeepsOrder(docs: seq<Doc>, term: string, statusFilter: string, typeFilter: string, sortBy: string)
    requires sortBy !in {"name", "created", "updated", "size"}
    ensures VisibleDocuments(docs, term, statusFilter, typeFilter, ParseSortKey(sortBy)) ==
      FilterDocs(docs, term, statusFilter, typeFilter)
  {
  }
}

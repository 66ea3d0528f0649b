/**
 * Listing and searching questions in Hasker
 * (W7_Hasker/hasker/core_hasker/views.py) and the tag list of a question
 * (W7_Hasker/hasker/core_hasker/models.py).
 *
 * The database's `order_by` is modelled by a stable insertion sort on the
 * ordering key; `icontains` by ASCII case-insensitive containment.
 */
module HaskerQuestions {
  import opened Wrappers
  import opened Text

  /** The columns of a question that listing and searching look at. */
  datatype Row = Row(id: nat, title: String, tags: String, text: String, createdAt: int, totalPoints: int)

  // ---------------------------------------------------------------------
  // Tags
  // ---------------------------------------------------------------------

  /** `get_tag_list`: the tag string split on single spaces. */
  function TagList(tags: String): (r: seq<String>)
    ensures |r| >= 1 && forall k :: 0 <= k < |r| ==> ' ' !in r[k]
  {
    Split(tags, ' ')
  }

  /** The tags joined by single spaces give back the stored string. */
  lemma TagListRoundTrip(tags: String)
    ensures Join(TagList(tags), ' ') == tags
  {
    JoinSplit(tags, ' ');
  }

  // ---------------------------------------------------------------------
  // Ordering
  // ---------------------------------------------------------------------

  /** `a` may come before `b` under `order_by('-created_at', '-total_points')`
    * (with `byPoints`) or `order_by('-created_at')` (without). */
  predicate Precedes(a: Row, b: Row, byPoints: bool)
  {
    a.createdAt > b.createdAt || (a.createdAt == b.createdAt && (!byPoints || a.totalPoints >= b.totalPoints))
  }

  predicate Sorted(s: seq<Row>, byPoints: bool)
  {
    forall i, j :: 0 <= i < j < |s| ==> Precedes(s[i], s[j], byPoints)
  }

  /** A row ahead of every row of an ordered sequence can lead it. */
  lemma ConsSorted(h: Row, t: seq<Row>, byPoints: bool)
    requires Sorted(t, byPoints)
    requires forall y :: y in t ==> Precedes(h, y, byPoints)
    ensures Sorted([h] + t, byPoints)
  {
    var s := [h] + t;
    forall i, j | 0 <= i < j < |s| ensures Precedes(s[i], s[j], byPoints) {
      assert s[j] == t[j - 1];
      if i > 0 {
        assert s[i] == t[i - 1];
      }
    }
  }

  /** Place `x` into the ordered `s`, ahead of the rows it ties with. */
  function Insert(x: Row, s: seq<Row>, byPoints: bool): (r: seq<Row>)
    requires Sorted(s, byPoints)
    ensures Sorted(r, byPoints)
    ensures multiset(r) == multiset(s) + multiset{x}
  {
    if s == [] || Precedes(x, s[0], byPoints) then
      InsertAhead(x, s, byPoints);
      [x] + s
    else
      var rest := Insert(x, s[1..], byPoints);
      InsertBehind(x, s, rest, byPoints);
      [s[0]] + rest
  }

  /** A row that may precede the head of an ordered sequence may lead it. */
  lemma InsertAhead(x: Row, s: seq<Row>, byPoints: bool)
    requires Sorted(s, byPoints)
    requires s == [] || Precedes(x, s[0], byPoints)
    ensures Sorted([x] + s, byPoints)
  {
    assert forall y :: y in s ==> Precedes(x, y, byPoints) by {
      forall y | y in s ensures Precedes(x, y, byPoints) {
        var j :| 0 <= j < |s| && s[j] == y;
        assert j == 0 || Precedes(s[0], s[j], byPoints);
      }
    }
    ConsSorted(x, s, byPoints);
  }

  /** A row that may not precede the head goes into the tail: the head still leads. */
  lemma InsertBehind(x: Row, s: seq<Row>, rest: seq<Row>, byPoints: bool)
    requires Sorted(s, byPoints) && s != [] && !Precedes(x, s[0], byPoints)
    requires Sorted(rest, byPoints) && multiset(rest) == multiset(s[1..]) + multiset{x}
    ensures Sorted([s[0]] + rest, byPoints)
    ensures multiset([s[0]] + rest) == multiset(s) + multiset{x}
  {
    assert s == [s[0]] + s[1..];
    assert forall y :: y in rest ==> Precedes(s[0], y, byPoints) by {
      forall y | y in rest ensures Precedes(s[0], y, byPoints) {
        assert y in multiset(rest);
        assert y in s[1..] || y == x;
        if y != x {
          var j :| 0 <= j < |s[1..]| && s[1..][j] == y;
          assert s[j + 1] == y;
        }
      }
    }
    ConsSorted(s[0], rest, byPoints);
  }

  /** The rows in the order the database returns them. */
  function OrderBy(s: seq<Row>, byPoints: bool): (r: seq<Row>)
    ensures Sorted(r, byPoints)
    ensures multiset(r) == multiset(s)
  {
    if s == [] then []
    else
      assert s == [s[0]] + s[1..];
      Insert(s[0], OrderBy(s[1..], byPoints), byPoints)
  }

  /** `QuestionListView.get_queryset`: newest first, then most points. */
  function Listing(all: seq<Row>): seq<Row>
  {
    OrderBy(all, true)
  }

  /** The listing holds every question once and is ordered newest first,
    * ties broken by points. */
  lemma ListingSpec(all: seq<Row>)
    ensures multiset(Listing(all)) == multiset(all)
    ensures forall i, j :: 0 <= i < j < |Listing(all)| ==>
              Listing(all)[i].createdAt > Listing(all)[j].createdAt
              || (Listing(all)[i].createdAt == Listing(all)[j].createdAt && Listing(all)[i].totalPoints >= Listing(all)[j].totalPoints)
  {
  }

  // ---------------------------------------------------------------------
  // Search
  // ---------------------------------------------------------------------

  /** `q[4:]`. */
  function DropFour(t: String): String
  {
    if |t| >= 4 then t[4..] else []
  }

  /** Does `row` pass the filter built from the tokens of a query? A `tag:`
    * query asks the tags to contain every token without its first four
    * characters; any other query asks the title, or else the text, to
    * contain every token. */
  predicate Matches(row: Row, byTag: bool, tokens: seq<String>)
  {
    if byTag then forall t :: t in tokens ==> IContains(row.tags, DropFour(t))
    else (forall t :: t in tokens ==> IContains(row.title, t)) || (forall t :: t in tokens ==> IContains(row.text, t))
  }

  /** The rows of `s` that pass the filter, in their order. */
  function Filter(s: seq<Row>, byTag: bool, tokens: seq<String>): (r: seq<Row>)
    ensures forall x :: x in r <==> x in s && Matches(x, byTag, tokens)
  {
    if s == [] then []
    else
      var rest := Filter(s[1..], byTag, tokens);
      assert forall x :: x in s[1..] ==> x in s;
      if Matches(s[0], byTag, tokens) then [s[0]] + rest else rest
  }

  /** What the search view shows, or the `TypeError` it raises. */
  datatype SearchResult = Results(rows: seq<Row>) | SearchTypeError

  /** `QuestionSearchListView.get_queryset` as written: with no tokens, a
    * query that is not a `tag:` query reaches `reduce` with nothing to
    * combine. */
  function SearchAsWritten(all: seq<Row>, query: Option<String>): SearchResult
  {
    var listed := Listing(all);
    if query.None? || query.value == [] then Results(OrderBy(listed, false))
    else
      var tokens := Words(query.value, IsPySpace);
      var byTag := StartsWith(query.value, "tag:");
      if !byTag && tokens == [] then SearchTypeError
      else Results(OrderBy(Filter(listed, byTag, tokens), false))
  }

  /** A query of spaces makes the search view raise. */
  lemma BlankQueryRaises(all: seq<Row>)
    ensures SearchAsWritten(all, Some(" ")) == SearchTypeError
  {
    assert !StartsWith(" ", "tag:");
    LeadingCountAll(" ", IsPySpace);
  }

  /** The search as evidently intended: a query without tokens filters nothing. */
  function Search(all: seq<Row>, query: Option<String>): seq<Row>
  {
    var listed := Listing(all);
    if query.None? || query.value == [] then OrderBy(listed, false)
    else
      var tokens := Words(query.value, IsPySpace);
      var byTag := StartsWith(query.value, "tag:");
      if !byTag && tokens == [] then OrderBy(listed, false)
      else OrderBy(Filter(listed, byTag, tokens), false)
  }

  /** Where the written search answers, the intended one answers the same. */
  lemma SearchAgrees(all: seq<Row>, query: Option<String>)
    requires SearchAsWritten(all, query).Results?
    ensures Search(all, query) == SearchAsWritten(all, query).rows
  {
  }

  /** The search lists newest first. Without a query, or with an empty one,
    * it shows every stored question, each as often as it is stored; with a
    * query it shows exactly the questions that pass the query's filter, and
    * a query without tokens passes them all. */
  lemma SearchSpec(all: seq<Row>, query: Option<String>)
    ensures Sorted(Search(all, query), false)
    ensures query.None? || query.value == [] ==> multiset(Search(all, query)) == multiset(all)
    ensures query.Some? && query.value != [] ==>
              var tokens := Words(query.value, IsPySpace);
              var byTag := StartsWith(query.value, "tag:");
              forall x :: x in Search(all, query) <==> x in all && ((!byTag && tokens == []) || Matches(x, byTag, tokens))
  {
    var listed := Listing(all);
    assert forall x :: x in listed <==> x in all by {
      assert multiset(listed) == multiset(all);
      forall x ensures x in listed <==> x in all {
        assert x in listed <==> x in multiset(listed);
      }
    }
    if query.Some? && query.value != [] {
      var tokens := Words(query.value, IsPySpace);
      var byTag := StartsWith(query.value, "tag:");
      var r := Search(all, query);
      var pre := if !byTag && tokens == [] then listed else Filter(listed, byTag, tokens);
      assert r == OrderBy(pre, false);
      forall x ensures x in r <==> x in pre {
        assert x in r <==> x in multiset(r);
        assert x in pre <==> x in multiset(pre);
      }
    }
  }
}

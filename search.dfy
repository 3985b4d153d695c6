/** The search box shared by the list pages: keep the records whose text
    contains the search term, ignoring case, in their original order. */
module Search {
  import opened Seqs
  import opened Text

  /** The predicate a search term puts on records whose text is `key`. */
  function MatchesTerm<T>(key: T -> string, term: string): T -> bool
  {
    x => IncludesIgnoringCase(key(x), term)
  }

  /** The empty search term matches every text. */
  lemma EmptyTermMatches(s: string)
    ensures IncludesIgnoringCase(s, "")
  {
    assert Lower("") == "";
  }

  /** `records.filter(x => key(x).toLowerCase().includes(term.toLowerCase()))`. */
  function SearchFilter<T(==,!new)>(records: seq<T>, key: T -> string, term: string): (r: seq<T>)
    ensures forall x :: x in r <==> x in records && IncludesIgnoringCase(key(x), term)
    ensures IsSubsequence(r, records)
    ensures forall x :: multiset(r)[x] == if IncludesIgnoringCase(key(x), term) then multiset(records)[x] else 0
  {
    Filter(records, MatchesTerm(key, term))
  }

  /** An empty search box shows every record. */
  lemma EmptyTermKeepsAll<T(!new)>(records: seq<T>, key: T -> string)
    ensures SearchFilter(records, key, "") == records
  {
    forall x | x in records
      ensures MatchesTerm(key, "")(x)
    {
      EmptyTermMatches(key(x));
    }
  }
}

/**
 * The search dialog (src/components/GlobalSearch.tsx): three fixed entries
 * filtered by a case-insensitive match of their name against the query.
 */
module GlobalSearch {
  import opened Base
  import opened Text

  datatype SearchEntry = SearchEntry(kind: string, name: string, id: string)

  function Entries(): seq<SearchEntry>
  {
    [ SearchEntry("Customer", "John Doe", "C001"),
      SearchEntry("Order", "Order #12345", "O001"),
      SearchEntry("Invoice", "INV-2024-001", "I001") ]
  }

  predicate Matches(e: SearchEntry, query: string)
  {
    Contains(Lower(e.name), Lower(query))
  }

  /** `mockResults`. */
  function Results(query: string): seq<SearchEntry>
  {
    Filter(e => Matches(e, query), Entries())
  }

  /** The results are exactly the matching entries, in their original order. */
  lemma ResultsIff(query: string, e: SearchEntry)
    ensures e in Results(query) <==> e in Entries() && Matches(e, query)
    ensures IsSubsequence(Results(query), Entries())
  {
    FilterMembership(e => Matches(e, query), Entries(), e);
    FilterIsSubsequence(e => Matches(e, query), Entries());
  }

  /** The empty query matches all three entries. */
  lemma EmptyQueryMatchesAll()
    ensures Results("") == Entries()
  {
    forall e | e in Entries() ensures Matches(e, "") {
      ContainsEmpty(Lower(e.name));
    }
    FilterAll(e => Matches(e, ""), Entries());
  }

  /** The result area, rendered only once something is typed. */
  predicate ShowResultArea(query: string)
  {
    query != ""
  }

  /** The "No results found" message. */
  predicate ShowNoResults(query: string)
  {
    ShowResultArea(query) && |Results(query)| == 0
  }

  /**
   * "No results" appears exactly when something is typed and no entry
   * matches it; with nothing typed neither results nor the message appear.
   */
  lemma NoResultsIff(query: string)
    ensures ShowNoResults(query) <==> query != "" && forall i :: 0 <= i < |Entries()| ==> !Matches(Entries()[i], query)
    ensures !ShowResultArea(query) ==> !ShowNoResults(query)
  {
    forall i | 0 <= i < |Entries()| ensures Entries()[i] in Results(query) <==> Matches(Entries()[i], query) {
      ResultsIff(query, Entries()[i]);
    }
    if |Results(query)| != 0 {
      ResultsIff(query, Results(query)[0]);
    }
  }

  /** An entry whose name lacks a letter of the query, in either case, does not match. */
  lemma MissingLetter(e: SearchEntry, query: string, c: char)
    requires 'a' <= c <= 'z' && c in Lower(query)
    requires c !in e.name && (c as int - 32) as char !in e.name
    ensures !Matches(e, query)
  {
    if Matches(e, query) {
      ContainsChars(Lower(e.name), Lower(query), c);
    }
  }
}

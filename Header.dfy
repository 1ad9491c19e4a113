/** The search box of the site header (src/components/Header.tsx): the
    suggestion list fetched for a settled query, the panel that shows it, and
    the submission of a search. */
module Header {
  import opened Types
  import opened Text
  import opened Sequences
  import opened Products

  /** Queries shorter than this are not sent. */
  const MinQueryLength: nat := 3
  /** At most this many suggestions are shown. */
  const MaxSuggestions: nat := 5

  /** `filtered.slice(0, 5)` of the products that match the query. */
  function Suggestions(results: seq<Product>, query: string): (r: seq<Product>)
    ensures |r| <= MaxSuggestions
    ensures forall p :: p in r ==> p in results && Matches(p, query)
  {
    var filtered := FilterMatching(results, query);
    if |filtered| <= MaxSuggestions then filtered else filtered[..MaxSuggestions]
  }

  /** The suggestions are the first matching results, in their original order;
      when fewer than five results match, all of them are suggested. */
  lemma SuggestionsArePrefix(results: seq<Product>, query: string)
    ensures var r := Suggestions(results, query);
      var filtered := FilterMatching(results, query);
      r <= filtered && IsSubsequence(r, results)
      && (|filtered| <= MaxSuggestions ==> r == filtered)
      && (|filtered| > MaxSuggestions ==> |r| == MaxSuggestions)
  {
    var filtered := FilterMatching(results, query);
    FilterIsSubsequence(results, query);
    PrefixOfSubsequence(Suggestions(results, query), filtered, results);
  }

  /** A prefix of a subsequence is a subsequence. */
  lemma {:induction false} PrefixOfSubsequence(a: seq<Product>, b: seq<Product>, c: seq<Product>)
    requires a <= b && IsSubsequence(b, c)
    ensures IsSubsequence(a, c)
    decreases |c|
  {
    if a != [] && c != [] {
      if b[0] == c[0] && IsSubsequence(b[1..], c[1..]) {
        PrefixOfSubsequence(a[1..], b[1..], c[1..]);
      } else {
        PrefixOfSubsequence(a, b, c[1..]);
      }
    }
  }

  /** What the suggestion panel below the search field displays. */
  datatype Panel = Closed | Loading | Items(products: seq<Product>) | NoResults | Blank

  /** The panel rendered for the header's search state: open only while
      suggestions are shown and there is a query or a suggestion; then the
      loading line, the list, the "nothing found" line for queries longer than
      two characters, or nothing. */
  function SuggestionPanel(show: bool, query: string, suggestions: seq<Product>, searching: bool): (p: Panel)
    ensures p == NoResults <==> show && !searching && |suggestions| == 0 && |query| > 2
    ensures p.Items? <==> show && !searching && |suggestions| > 0
    ensures p.Items? ==> p == Items(suggestions)
    ensures p == Loading <==> show && searching && (query != "" || |suggestions| > 0)
  {
    if !(show && (query != "" || |suggestions| > 0)) then Closed
    else if searching then Loading
    else if |suggestions| > 0 then Items(suggestions)
    else if |query| > 2 then NoResults
    else Blank
  }

  class SearchBox {
    var searchQuery: string
    var suggestions: seq<Product>
    var showSuggestions: bool
    var isSearching: bool

    constructor ()
      ensures searchQuery == "" && suggestions == [] && !showSuggestions && !isSearching
    {
      searchQuery := "";
      suggestions := [];
      showSuggestions := false;
      isSearching := false;
    }

    /** `fetchSuggestions` for a settled query. A query shorter than three
        characters clears the suggestions and sends nothing; otherwise the
        query is sent and the suggestions become the first five matching
        results of the reply, or nothing when the request fails. The
        searching flag is down again afterwards in every case. */
    method FetchSuggestions(debounced: string, reply: Response<ProductsBody>) returns (sent: Option<string>)
      modifies this`suggestions, this`isSearching
      ensures |debounced| < MinQueryLength ==>
        sent == None && suggestions == [] && isSearching == old(isSearching)
      ensures |debounced| >= MinQueryLength ==> sent == Some(debounced) && !isSearching
      ensures |debounced| >= MinQueryLength && reply.Threw? ==> suggestions == []
      ensures |debounced| >= MinQueryLength && reply.Ok? ==>
        suggestions == Suggestions(NormaliseProducts(reply.body), debounced)
    {
      if |debounced| < MinQueryLength {
        suggestions := [];
        return None;
      }
      isSearching := true;
      sent := Some(debounced);
      match reply {
        case Ok(body) =>
          var results := NormaliseProducts(body);
          suggestions := Suggestions(results, debounced);
        case Threw(_) =>
          suggestions := [];
      }
      isSearching := false;
    }

    /** `handleSearch`: always hides the suggestions, and asks to navigate to
        the search results only when the query has a non-blank character. */
    method HandleSearch() returns (navigateTo: Option<string>)
      modifies this`showSuggestions
      ensures !showSuggestions
      ensures navigateTo.Some? <==> exists i :: 0 <= i < |searchQuery| && !IsSpace(searchQuery[i])
      ensures navigateTo.Some? ==> navigateTo.value == searchQuery
    {
      showSuggestions := false;
      TrimEmptyIff(searchQuery);
      if Trim(searchQuery) != "" {
        navigateTo := Some(searchQuery);
      } else {
        navigateTo := None;
      }
    }
  }
}

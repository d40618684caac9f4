/**
 * The search of the resource library page: a resource is shown when its
 * title or description contains the search term, ignoring case, and its
 * category is the selected one (or the selection is "all").
 */
module ResourceLibrary {
  import Seqs
  import Strings

  datatype Resource = Resource(
    id: string,
    title: string,
    description: string,
    category: string,
    url: string,
    createdAt: string)

  predicate MatchesSearch(r: Resource, searchTerm: string) {
    var term := Strings.ToLower(searchTerm);
    Strings.Contains(Strings.ToLower(r.title), term) || Strings.Contains(Strings.ToLower(r.description), term)
  }

  predicate MatchesCategory(r: Resource, selectedCategory: string) {
    selectedCategory == "all" || r.category == selectedCategory
  }

  predicate Shown(r: Resource, searchTerm: string, selectedCategory: string) {
    MatchesSearch(r, searchTerm) && MatchesCategory(r, selectedCategory)
  }

  /** `filteredResources`. */
  function FilteredResources(resources: seq<Resource>, searchTerm: string, selectedCategory: string): seq<Resource> {
    Seqs.Filter(resources, (r: Resource) => Shown(r, searchTerm, selectedCategory))
  }

  /**
   * The result holds exactly the resources matching both the search and the
   * category, each as often as in the list, in the list's order.
   */
  lemma FilteredResourcesSpec(resources: seq<Resource>, searchTerm: string, selectedCategory: string)
    ensures forall r :: r in FilteredResources(resources, searchTerm, selectedCategory) ==>
              MatchesSearch(r, searchTerm) && MatchesCategory(r, selectedCategory)
    ensures forall r :: r in resources && Shown(r, searchTerm, selectedCategory) ==>
              multiset(FilteredResources(resources, searchTerm, selectedCategory))[r] == multiset(resources)[r]
    ensures Seqs.IsSubsequence(FilteredResources(resources, searchTerm, selectedCategory), resources)
  {
    var p := (r: Resource) => Shown(r, searchTerm, selectedCategory);
    forall r | r in resources && Shown(r, searchTerm, selectedCategory)
      ensures multiset(FilteredResources(resources, searchTerm, selectedCategory))[r] == multiset(resources)[r]
    {
      Seqs.FilterKeepsMatching(resources, p, r);
    }
    Seqs.FilterIsSubsequence(resources, p);
  }

  /** With an empty search and every category selected, every resource is shown. */
  lemma EmptySearchShowsAll(resources: seq<Resource>)
    ensures FilteredResources(resources, "", "all") == resources
  {
    forall r | r in resources ensures Shown(r, "", "all") {
      Strings.ContainsEmpty(Strings.ToLower(r.title));
    }
    Seqs.FilterAll(resources, (r: Resource) => Shown(r, "", "all"));
  }

  /** Filtering the result again with the same search and category changes nothing. */
  lemma RefilterIsIdentity(resources: seq<Resource>, searchTerm: string, selectedCategory: string)
    ensures var shown := FilteredResources(resources, searchTerm, selectedCategory);
            FilteredResources(shown, searchTerm, selectedCategory) == shown
  {
    Seqs.FilterIdempotent(resources, (r: Resource) => Shown(r, searchTerm, selectedCategory));
  }

  /** The search ignores the case of ASCII letters in the term. */
  lemma SearchIgnoresTermCase(resources: seq<Resource>, searchTerm: string, selectedCategory: string)
    ensures FilteredResources(resources, Strings.ToUpper(searchTerm), selectedCategory)
         == FilteredResources(resources, searchTerm, selectedCategory)
  {
    Strings.ToLowerOfToUpper(searchTerm);
    Seqs.FilterCongruent(resources,
      (r: Resource) => Shown(r, Strings.ToUpper(searchTerm), selectedCategory),
      (r: Resource) => Shown(r, searchTerm, selectedCategory));
  }
}

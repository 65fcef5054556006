/** The routed gallery page: it loads the approved items of the seed data once, and
    an effect re-filters and re-sorts them whenever the items, the search term or
    the sort key change. The effect builds a fresh array with `filter` and sorts
    that array in place inside a `switch` on the sort key. */
module GalleryPage {
  import opened Text
  import opened Seqs
  import opened StableSort
  import opened Media

  /** `item.caption?.toLowerCase().includes(term) || item.uploaderName.toLowerCase().includes(term)`,
      with the term lower-cased: a missing caption contributes no match. */
  function Matches(item: MediaItem, searchTerm: string): (m: bool)
    ensures m <==> (item.caption.Some? && Occurs(ToLower(item.caption.value), ToLower(searchTerm))) ||
                   Occurs(ToLower(item.uploaderName), ToLower(searchTerm))
  {
    IncludesIff(ToLower(item.uploaderName), ToLower(searchTerm));
    if item.caption.Some? then
      IncludesIff(ToLower(item.caption.value), ToLower(searchTerm));
      Includes(ToLower(item.caption.value), ToLower(searchTerm)) ||
      Includes(ToLower(item.uploaderName), ToLower(searchTerm))
    else
      Includes(ToLower(item.uploaderName), ToLower(searchTerm))
  }

  function MatchesTerm(searchTerm: string): MediaItem -> bool
  {
    item => Matches(item, searchTerm)
  }

  /** The sort keys of the three comparators: `b.uploadDate - a.uploadDate`,
      `a.uploadDate - b.uploadDate` and `b.likes - a.likes` are KEY(a) - KEY(b). */
  function NewestFirst(): MediaItem -> int
  {
    (item: MediaItem) => -item.uploadDate
  }

  function OldestFirst(): MediaItem -> int
  {
    (item: MediaItem) => item.uploadDate
  }

  function MostLikedFirst(): MediaItem -> int
  {
    (item: MediaItem) => -item.likes
  }

  /** The `switch (sortBy)`: the three known keys sort, any other key leaves the list alone. */
  function SortedView(items: seq<MediaItem>, sortBy: string): (r: seq<MediaItem>)
    ensures |r| == |items|
  {
    if sortBy == "newest" then SortByKey(items, NewestFirst())
    else if sortBy == "oldest" then SortByKey(items, OldestFirst())
    else if sortBy == "most-liked" then SortByKey(items, MostLikedFirst())
    else items
  }

  /** What the effect stores in filteredItems. */
  function View(mediaItems: seq<MediaItem>, searchTerm: string, sortBy: string): (r: seq<MediaItem>)
    ensures |r| <= |mediaItems|
  {
    SortedView(Filter(mediaItems, MatchesTerm(searchTerm)), sortBy)
  }

  /** The view is a rearrangement of the matching items. */
  lemma ViewPermutes(mediaItems: seq<MediaItem>, searchTerm: string, sortBy: string)
    ensures multiset(View(mediaItems, searchTerm, sortBy)) ==
            multiset(Filter(mediaItems, MatchesTerm(searchTerm)))
  {
    var matched := Filter(mediaItems, MatchesTerm(searchTerm));
    if sortBy == "newest" {
      SortPermutes(matched, NewestFirst());
    } else if sortBy == "oldest" {
      SortPermutes(matched, OldestFirst());
    } else if sortBy == "most-liked" {
      SortPermutes(matched, MostLikedFirst());
    }
  }

  /** An item is shown iff it is loaded and matches the term; each shown item appears as
      often as it is loaded. */
  lemma ViewMembers(mediaItems: seq<MediaItem>, searchTerm: string, sortBy: string, item: MediaItem)
    ensures item in View(mediaItems, searchTerm, sortBy) <==> item in mediaItems && Matches(item, searchTerm)
    ensures multiset(View(mediaItems, searchTerm, sortBy))[item] ==
            if Matches(item, searchTerm) then multiset(mediaItems)[item] else 0
  {
    ViewPermutes(mediaItems, searchTerm, sortBy);
    FilterMultiplicity(mediaItems, MatchesTerm(searchTerm), item);
    assert item in View(mediaItems, searchTerm, sortBy) <==>
           item in multiset(View(mediaItems, searchTerm, sortBy));
  }

  /** An item without a caption is found through its uploader name alone. */
  lemma CaptionlessMatches(item: MediaItem, searchTerm: string)
    requires item.caption.None?
    ensures Matches(item, searchTerm) <==> Includes(ToLower(item.uploaderName), ToLower(searchTerm))
  {
  }

  /** 'newest' gives non-increasing upload dates, 'oldest' non-decreasing ones and
      'most-liked' non-increasing like counts. */
  lemma ViewOrdered(mediaItems: seq<MediaItem>, searchTerm: string, sortBy: string, i: int, j: int)
    requires 0 <= i < j < |View(mediaItems, searchTerm, sortBy)|
    ensures var r := View(mediaItems, searchTerm, sortBy);
            (sortBy == "newest" ==> r[i].uploadDate >= r[j].uploadDate) &&
            (sortBy == "oldest" ==> r[i].uploadDate <= r[j].uploadDate) &&
            (sortBy == "most-liked" ==> r[i].likes >= r[j].likes)
  {
    var matched := Filter(mediaItems, MatchesTerm(searchTerm));
    if sortBy == "newest" {
      SortSorted(matched, NewestFirst());
    } else if sortBy == "oldest" {
      SortSorted(matched, OldestFirst());
    } else if sortBy == "most-liked" {
      SortSorted(matched, MostLikedFirst());
    }
  }

  function DateIs(date: int): MediaItem -> bool
  {
    (item: MediaItem) => item.uploadDate == date
  }

  function LikesAre(likes: int): MediaItem -> bool
  {
    (item: MediaItem) => item.likes == likes
  }

  /** The sort is stable: items that compare equal under the chosen comparator (same
      upload date, or same like count) keep their filtered order. */
  lemma ViewStable(mediaItems: seq<MediaItem>, searchTerm: string, sortBy: string, date: int, likes: int)
    ensures var matched := Filter(mediaItems, MatchesTerm(searchTerm));
            var r := View(mediaItems, searchTerm, sortBy);
            ((sortBy == "newest" || sortBy == "oldest") ==> Filter(r, DateIs(date)) == Filter(matched, DateIs(date))) &&
            (sortBy == "most-liked" ==> Filter(r, LikesAre(likes)) == Filter(matched, LikesAre(likes)))
  {
    var matched := Filter(mediaItems, MatchesTerm(searchTerm));
    if sortBy == "newest" {
      StableFor(matched, NewestFirst(), DateIs(date), -date);
    } else if sortBy == "oldest" {
      StableFor(matched, OldestFirst(), DateIs(date), date);
    } else if sortBy == "most-liked" {
      StableFor(matched, MostLikedFirst(), LikesAre(likes), -likes);
    }
  }

  /** The default branch of the switch leaves the filtered order. */
  lemma UnknownSortKeepsOrder(mediaItems: seq<MediaItem>, searchTerm: string, sortBy: string)
    requires sortBy != "newest" && sortBy != "oldest" && sortBy != "most-liked"
    ensures View(mediaItems, searchTerm, sortBy) == Filter(mediaItems, MatchesTerm(searchTerm))
  {
  }

  /** An empty search term shows every loaded item. */
  lemma EmptySearchShowsAll(mediaItems: seq<MediaItem>, sortBy: string)
    ensures multiset(View(mediaItems, "", sortBy)) == multiset(mediaItems)
  {
    forall item | item in mediaItems ensures MatchesTerm("")(item) {
      EmptyIncluded(ToLower(item.uploaderName));
    }
    FilterAll(mediaItems, MatchesTerm(""));
    ViewPermutes(mediaItems, "", sortBy);
  }

  /** Loading keeps exactly the approved seed items, each as often as it is seeded,
      in seed order. */
  lemma LoadedAreApproved(seed: seq<MediaItem>, item: MediaItem)
    ensures item in Filter(seed, IsApproved()) <==> item in seed && item.approved
    ensures multiset(Filter(seed, IsApproved()))[item] ==
            if item.approved then multiset(seed)[item] else 0
    ensures Subsequence(Filter(seed, IsApproved()), seed)
  {
    FilterMembers(seed, IsApproved());
    FilterMultiplicity(seed, IsApproved(), item);
    FilterIsSubsequence(seed, IsApproved());
  }

  class GalleryPage {
    var mediaItems: seq<MediaItem>
    var filteredItems: seq<MediaItem>
    var isLoading: bool
    var searchTerm: string
    var sortBy: string

    /** The shown list is never longer than the loaded one. It holds in every state
        the page renders, including the one right after loading, when a term typed
        during the load has not been applied yet. */
    predicate Valid()
      reads this
    {
      |filteredItems| <= |mediaItems|
    }

    constructor ()
      ensures Valid()
      ensures mediaItems == [] && filteredItems == [] && isLoading
      ensures searchTerm == "" && sortBy == "newest"
    {
      mediaItems, filteredItems, isLoading := [], [], true;
      searchTerm, sortBy := "", "newest";
    }

    /** loadMediaItems after its delay: both lists become the approved seed items. */
    method LoadMediaItems(seed: seq<MediaItem>)
      modifies this
      ensures Valid()
      ensures mediaItems == Filter(seed, IsApproved()) && filteredItems == mediaItems
      ensures !isLoading && searchTerm == old(searchTerm) && sortBy == old(sortBy)
    {
      var approved := Filter(seed, IsApproved());
      mediaItems := approved;
      filteredItems := approved;
      isLoading := false;
    }

    /** The filter-and-sort effect. Only the fresh `filtered` array is sorted;
        mediaItems keeps its order. */
    method FilterAndSort()
      modifies this
      ensures Valid()
      ensures filteredItems == View(mediaItems, searchTerm, sortBy)
      ensures mediaItems == old(mediaItems) && searchTerm == old(searchTerm)
      ensures sortBy == old(sortBy) && isLoading == old(isLoading)
    {
      var matched := Filter(mediaItems, MatchesTerm(searchTerm));
      var filtered := new MediaItem[|matched|](i requires 0 <= i < |matched| => matched[i]);
      assert filtered[..] == matched;
      if sortBy == "newest" {
        InsertionSort(filtered, NewestFirst());
      } else if sortBy == "oldest" {
        InsertionSort(filtered, OldestFirst());
      } else if sortBy == "most-liked" {
        InsertionSort(filtered, MostLikedFirst());
      }
      filteredItems := filtered[..];
    }

    /** Typing in the search box: the term changes and the effect runs. */
    method SetSearchTerm(term: string)
      modifies this
      ensures Valid()
      ensures searchTerm == term && sortBy == old(sortBy) && mediaItems == old(mediaItems)
      ensures isLoading == old(isLoading)
      ensures filteredItems == View(mediaItems, term, sortBy)
    {
      searchTerm := term;
      FilterAndSort();
    }

    /** Choosing a sort key: the key changes and the effect runs. */
    method SetSortBy(key: string)
      modifies this
      ensures Valid()
      ensures sortBy == key && searchTerm == old(searchTerm) && mediaItems == old(mediaItems)
      ensures isLoading == old(isLoading)
      ensures filteredItems == View(mediaItems, searchTerm, key)
    {
      sortBy := key;
      FilterAndSort();
    }

    /** "Showing X of Y memories": X is the number of shown items, Y the number of loaded
        ones, and X never exceeds Y. */
    function ShowingCounts(): (counts: (nat, nat))
      reads this
      requires Valid()
      ensures counts.0 == |filteredItems| && counts.1 == |mediaItems|
      ensures counts.0 <= counts.1
    {
      (|filteredItems|, |mediaItems|)
    }
  }
}

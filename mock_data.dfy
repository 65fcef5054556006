/** The seed data of the app (six approved media items and three pending uploads)
    and small scenarios run through the model. Upload dates are the ISO timestamps
    of the seed data in milliseconds since the epoch. */
module MockData {
  import opened Seqs
  import opened Text
  import opened StableSort
  import opened Media
  import opened GalleryPage
  import opened AdminPage

  const MockMediaItems: seq<MediaItem> := [
    MediaItem("1", Image, "https://images.unsplash.com/photo-1530103862676-de8c9debad1d?w=400&h=400&fit=crop",
      Some("What an amazing birthday celebration! The cake was absolutely delicious and the company was even better. Thank you for making this day so special! 🎂✨"),
      "Sarah Johnson", 1705314600000, 24, 8, true),
    MediaItem("2", Image, "https://images.unsplash.com/photo-1464349095431-e9a21285b5f3?w=400&h=400&fit=crop",
      Some("Birthday surprise party was a huge success! Everyone had such a great time dancing and celebrating. The decorations turned out perfect! 🎉"),
      "Mike Chen", 1705247100000, 31, 12, true),
    MediaItem("3", Video, "/placeholder-video.mp4",
      Some("The moment when the birthday candles were blown out - pure joy! This video captures the happiness perfectly."),
      "Emma Wilson", 1705170000000, 18, 5, true),
    MediaItem("4", Image, "https://images.unsplash.com/photo-1558618666-fcd25c85cd64?w=400&h=400&fit=crop",
      Some("Group photo with all the birthday guests! Such wonderful memories with amazing friends and family. Love you all! ❤️"),
      "David Rodriguez", 1705090200000, 45, 15, true),
    MediaItem("5", Image, "https://images.unsplash.com/photo-1555685812-4b943f1cb0eb?w=400&h=400&fit=crop",
      Some("The birthday cake was a masterpiece! Three layers of chocolate goodness with the most beautiful decorations."),
      "Lisa Park", 1704983400000, 28, 7, true),
    MediaItem("6", Image, "https://images.unsplash.com/photo-1513475382585-d06e58bcb0e0?w=400&h=400&fit=crop",
      Some("Birthday balloons everywhere! The room looked absolutely magical with all the colorful decorations and sparkles."),
      "Tom Anderson", 1704905100000, 22, 4, true)
  ]

  const MockPendingUploads: seq<PendingUpload> := [
    PendingUpload("pending-1", Image, "https://images.unsplash.com/photo-1607344645866-009c7d0f2e8d?w=400&h=400&fit=crop",
      "Late night birthday celebration with close friends. The intimate gathering was perfect!",
      "Alex Thompson", 1705443300000, false),
    PendingUpload("pending-2", Image, "https://images.unsplash.com/photo-1578662996442-48f60103fc96?w=400&h=400&fit=crop",
      "Birthday breakfast in bed - what a wonderful way to start the special day!",
      "Jessica Lee", 1705393800000, false),
    PendingUpload("pending-3", Video, "/placeholder-video-2.mp4",
      "Birthday song performance by the kids - absolutely adorable and heartwarming!",
      "Robert Kim", 1705347900000, false)
  ]

  /** Every seed item is approved, so the gallery loads all six in seed order. */
  lemma SeedAllApproved()
    ensures Filter(MockMediaItems, IsApproved()) == MockMediaItems
  {
    FilterAll(MockMediaItems, IsApproved());
  }

  /** 'pending-1' is queued exactly once among the three seed uploads. */
  lemma PendingOneOnce()
    ensures |MockPendingUploads| == 3
    ensures CountId(MockPendingUploads, "pending-1") == 1
  {
    var p := MockPendingUploads;
    var id := "pending-1";
    assert p[0].id == id;
    assert p[1].id[8] == '2' && p[2].id[8] == '3';
    assert p[1..][1..] == [p[2]] && p[1..][0] == p[1];
    assert CountIf([p[2]], IdIs(id)) == 0;
  }

  /** The admin page starts with 6 approved and 3 pending: a total of 9. Approving
      'pending-1' keeps the total at 9; rejecting it instead lowers it to 8. */
  lemma SeedAdminTotals()
    ensures Total(|Filter(MockMediaItems, IsApproved())|, MockPendingUploads) == 9
    ensures Total(|Filter(MockMediaItems, IsApproved())| + 1, WithoutId(MockPendingUploads, "pending-1")) == 9
    ensures Total(|Filter(MockMediaItems, IsApproved())|, WithoutId(MockPendingUploads, "pending-1")) == 8
  {
    SeedAllApproved();
    PendingOneOnce();
    ApproveTotal(6, MockPendingUploads, "pending-1");
    RejectTotal(6, MockPendingUploads, "pending-1");
  }

  const CakeTime := MediaItem("1", Image, "", Some("cake time"), "Sam", 1704067200000, 5, 0, true)
  const Party := MediaItem("2", Image, "", Some("party"), "Lee", 1704153600000, 9, 0, true)

  lemma CakeTimeMatchesCake()
    ensures Matches(CakeTime, "cake")
  {
    LowerFixed("cake");
    LowerFixed("cake time");
    assert "cake time"[..4] == "cake";
  }

  lemma PartyHasNoCake()
    ensures !Includes("party", "cake")
  {
    assert "party"[..4][0] == 'p';
    assert "party"[1..] == "arty";
    assert "arty"[..4][0] == 'a' && "cake"[0] == 'c';
    assert "arty"[1..] == "rty";
  }

  lemma PartyMissesCake()
    ensures !Matches(Party, "cake")
  {
    LowerFixed("cake");
    LowerFixed("party");
    assert ToLower("Lee") == "lee";
    PartyHasNoCake();
    assert !Includes("lee", "cake");
  }

  /** Two small records: the term "cake" finds only the one whose caption holds it. */
  lemma CakeSearchScenario()
    ensures View([CakeTime, Party], "cake", "newest") == [CakeTime]
  {
    CakeTimeMatchesCake();
    PartyMissesCake();
    var two := [CakeTime, Party];
    assert two[1..] == [Party];
    assert Filter(two, MatchesTerm("cake")) == [CakeTime];
    assert SortByKey([CakeTime], NewestFirst()) == [CakeTime];
  }

  /** The empty term keeps both records. */
  lemma EmptyTermKeepsBoth()
    ensures Filter([CakeTime, Party], MatchesTerm("")) == [CakeTime, Party]
  {
    var two := [CakeTime, Party];
    forall item | item in two
      ensures MatchesTerm("")(item)
    {
      EmptyIncluded(ToLower(item.uploaderName));
    }
    FilterAll(two, MatchesTerm(""));
  }

  /** Sorting the two records by likes puts the 9-like record first. */
  lemma MostLikedOrdersBoth()
    ensures SortByKey([CakeTime, Party], MostLikedFirst()) == [Party, CakeTime]
  {
    var key := MostLikedFirst();
    assert key(CakeTime) == -5 && key(Party) == -9;
    assert [CakeTime, Party][..1] == [CakeTime];
    assert SortByKey([CakeTime], key) == [CakeTime];
    assert Insert([CakeTime], Party, key) == [Party, CakeTime];
  }

  /** The same records with an empty term sorted by likes: 9 likes before 5. */
  lemma MostLikedScenario()
    ensures View([CakeTime, Party], "", "most-liked") == [Party, CakeTime]
  {
    EmptyTermKeepsBoth();
    MostLikedOrdersBoth();
  }

  /** Both short records are approved, so loading them keeps both. */
  lemma BothApproved()
    ensures Filter([CakeTime, Party], IsApproved()) == [CakeTime, Party]
  {
    FilterAll([CakeTime, Party], IsApproved());
  }

  /** A term typed while the page is still loading: the load then shows all items
      ("Showing 2 of 2") until the effect runs again and applies the term ("Showing 1
      of 2"). */
  method TypedDuringLoad() returns (afterLoad: (nat, nat), applied: bool, afterEffect: (nat, nat))
    ensures afterLoad == (2, 2) && !applied
    ensures afterEffect == (1, 2)
  {
    var page := new GalleryPage();
    page.SetSearchTerm("cake");
    page.LoadMediaItems([CakeTime, Party]);
    BothApproved();
    CakeSearchScenario();
    afterLoad := page.ShowingCounts();
    applied := page.filteredItems == View(page.mediaItems, page.searchTerm, page.sortBy);
    page.FilterAndSort();
    afterEffect := page.ShowingCounts();
  }
}

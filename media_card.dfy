/** One card of the gallery grid. Its only state of interest is the viewer's own
    like, which is never written back: the shown count is the item's stored like
    count plus one while the viewer likes it. */
module MediaCard {
  import opened Media

  const DefaultAlt := "Birthday memory"

  /** `media.likes + (isLiked ? 1 : 0)`. */
  function DisplayedLikes(likes: int, isLiked: bool): (shown: int)
    ensures likes <= shown <= likes + 1
    ensures shown == likes + 1 <==> isLiked
  {
    likes + (if isLiked then 1 else 0)
  }

  /** `media.caption || 'Birthday memory'`: a missing or empty caption falls back. */
  function AltText(caption: Option<string>): (alt: string)
    ensures alt != ""
    ensures caption.Some? && caption.value != "" ==> alt == caption.value
    ensures caption.None? || caption.value == "" ==> alt == DefaultAlt
  {
    match caption
    case Some(text) => if text != "" then text else DefaultAlt
    case None => DefaultAlt
  }

  class MediaCard {
    const media: MediaItem
    var isLiked: bool

    constructor (media: MediaItem)
      ensures this.media == media && !isLiked
    {
      this.media := media;
      isLiked := false;
    }

    /** handleLike: `setIsLiked(!isLiked)`. */
    method HandleLike()
      modifies this
      ensures isLiked == !old(isLiked)
      ensures LikeCount() == if isLiked then media.likes + 1 else media.likes
    {
      isLiked := !isLiked;
    }

    /** The count shown next to the heart. */
    function LikeCount(): (shown: int)
      reads this
      ensures media.likes <= shown <= media.likes + 1
    {
      DisplayedLikes(media.likes, isLiked)
    }
  }

  /** Liking twice undoes the first like, and the stored count is never touched. */
  method LikeTwice(card: MediaCard)
    modifies card
    ensures card.isLiked == old(card.isLiked)
    ensures card.LikeCount() == old(card.LikeCount())
  {
    card.HandleLike();
    card.HandleLike();
  }
}

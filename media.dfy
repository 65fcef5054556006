/** The values the app passes around: the browser's File, the image/video
    classification of a file, and the media item records of the seed data. */
module Media {
  import opened Text

  datatype Option<T> = None | Some(value: T)

  datatype MediaType = Image | Video

  /** A browser File: its name, its declared MIME type and its size in bytes. */
  datatype File = File(name: string, mimeType: string, size: nat)

  /** A gallery record as the seed data and the gallery page see it. The caption is
      optional; uploadDate is a timestamp (milliseconds since the epoch). */
  datatype MediaItem = MediaItem(
    id: string,
    mediaType: MediaType,
    url: string,
    caption: Option<string>,
    uploaderName: string,
    uploadDate: int,
    likes: int,
    comments: int,
    approved: bool)

  /** `item => item.approved`: the test both the gallery and the admin page load with. */
  function IsApproved(): MediaItem -> bool
  {
    (item: MediaItem) => item.approved
  }

  /** `type.startsWith('video') ? 'video' : 'image'`: the declared MIME type decides,
      with no look at the content. */
  function MediaTypeOf(mimeType: string): (t: MediaType)
    ensures t == Video <==> StartsWith(mimeType, "video")
    ensures t == Image <==> !StartsWith(mimeType, "video")
  {
    if StartsWith(mimeType, "video") then Video else Image
  }
}

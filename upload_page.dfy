/** The hosted-backend upload page: title, caption, poster name and a media file;
    submit sends the file to the media host, asks the `moments` table to insert a row
    with approved = false, and navigates to the gallery. The two remote calls are
    inputs: what the media host answered and whether the insert reported an error. */
module UploadPage {
  import opened Text
  import opened Media

  const FieldsRequiredAlert := "All fields required"
  const UploadFailedAlert := "Upload failed"

  /** The answer of the media host: the durable URL of the file, or a thrown error. */
  datatype HostResult = Hosted(secureUrl: string) | HostFailed

  /** The row sent to the `moments` table's insert. */
  datatype MomentRow = MomentRow(
    title: string,
    caption: string,
    posterName: string,
    mediaUrl: string,
    approved: bool,
    mediaType: MediaType)

  /** The guard `!title || !caption || !poster || !media`, negated. */
  predicate AllFieldsGiven(title: string, caption: string, poster: string, media: Option<File>)
  {
    title != "" && caption != "" && poster != "" && media.Some?
  }

  /** The insert payload: the form fields, the host's URL, not yet approved, and the
      media type read off the file's declared type. */
  function MomentRowFor(title: string, caption: string, poster: string, media: File, secureUrl: string): (row: MomentRow)
    ensures !row.approved
    ensures row.title == title && row.caption == caption && row.posterName == poster
    ensures row.mediaUrl == secureUrl
    ensures row.mediaType == Video <==> StartsWith(media.mimeType, "video")
  {
    MomentRow(title, caption, poster, secureUrl, false, MediaTypeOf(media.mimeType))
  }

  class UploadPage {
    var title: string
    var caption: string
    var poster: string
    var media: Option<File>
    var preview: Option<string>
    // what the page did to the outside world, in order
    var alerts: seq<string>
    var hostCalls: seq<File>
    var insertCalls: seq<MomentRow>
    var navigations: seq<string>

    constructor ()
      ensures title == "" && caption == "" && poster == "" && media == None && preview == None
      ensures alerts == [] && hostCalls == [] && insertCalls == [] && navigations == []
    {
      title, caption, poster, media, preview := "", "", "", None, None;
      alerts, hostCalls, insertCalls, navigations := [], [], [], [];
    }

    /** The three text fields. */
    method SetFields(newTitle: string, newCaption: string, newPoster: string)
      modifies this
      ensures title == newTitle && caption == newCaption && poster == newPoster
      ensures media == old(media) && preview == old(preview) && alerts == old(alerts)
      ensures hostCalls == old(hostCalls) && insertCalls == old(insertCalls) && navigations == old(navigations)
    {
      title, caption, poster := newTitle, newCaption, newPoster;
    }

    /** handleMediaChange: the first chosen file becomes the media and its object URL the
        preview. With no file, `files[0]` is undefined: the media is cleared and
        URL.createObjectURL(undefined) throws before the preview is set. */
    method HandleMediaChange(files: seq<File>, objectUrl: string)
      modifies this
      ensures files != [] ==> media == Some(files[0]) && preview == Some(objectUrl)
      ensures files == [] ==> media == None && preview == old(preview)
      ensures title == old(title) && caption == old(caption) && poster == old(poster)
      ensures alerts == old(alerts) && hostCalls == old(hostCalls)
      ensures insertCalls == old(insertCalls) && navigations == old(navigations)
    {
      if files == [] {
        media := None;
        return;
      }
      media := Some(files[0]);
      preview := Some(objectUrl);
    }

    /** handleSubmit. A missing field alerts and stops before any remote call. Otherwise
        the file goes to the media host; if that throws, the handler stops there.
        Otherwise the row is inserted; an insert error alerts and stays on the page,
        success navigates to the gallery. The form fields are never cleared. */
    method HandleSubmit(host: HostResult, insertFails: bool)
      modifies this
      ensures title == old(title) && caption == old(caption) && poster == old(poster)
      ensures media == old(media) && preview == old(preview)
      ensures !AllFieldsGiven(title, caption, poster, media) ==>
              alerts == old(alerts) + [FieldsRequiredAlert] && hostCalls == old(hostCalls) &&
              insertCalls == old(insertCalls) && navigations == old(navigations)
      ensures AllFieldsGiven(title, caption, poster, media) ==>
              hostCalls == old(hostCalls) + [media.value]
      ensures AllFieldsGiven(title, caption, poster, media) && host.HostFailed? ==>
              alerts == old(alerts) && insertCalls == old(insertCalls) && navigations == old(navigations)
      ensures AllFieldsGiven(title, caption, poster, media) && host.Hosted? ==>
              insertCalls == old(insertCalls) + [MomentRowFor(title, caption, poster, media.value, host.secureUrl)]
      ensures (forall row :: row in old(insertCalls) ==> !row.approved) ==>
              forall row :: row in insertCalls ==> !row.approved
      ensures AllFieldsGiven(title, caption, poster, media) && host.Hosted? && insertFails ==>
              alerts == old(alerts) + [UploadFailedAlert] && navigations == old(navigations)
      ensures AllFieldsGiven(title, caption, poster, media) && host.Hosted? && !insertFails ==>
              alerts == old(alerts) && navigations == old(navigations) + ["/gallery"]
    {
      if !AllFieldsGiven(title, caption, poster, media) {
        alerts := alerts + [FieldsRequiredAlert];
        return;
      }
      hostCalls := hostCalls + [media.value];
      if host.HostFailed? {
        return;
      }
      var row := MomentRowFor(title, caption, poster, media.value, host.secureUrl);
      insertCalls := insertCalls + [row];
      if insertFails {
        alerts := alerts + [UploadFailedAlert];
        return;
      }
      navigations := navigations + ["/gallery"];
    }
  }
}

/** The admin dashboard: a list of pending uploads that approve and reject shrink,
    and a counter of approved items that approve bumps. Approving does not move the
    item anywhere; it only raises the counter. The "Total Uploads" card shows
    approvedCount + pendingUploads.length. */
module AdminPage {
  import opened Seqs
  import opened Media

  /** A pending upload of the seed data: like a media item, without likes or comments. */
  datatype PendingUpload = PendingUpload(
    id: string,
    mediaType: MediaType,
    url: string,
    caption: string,
    uploaderName: string,
    uploadDate: int,
    approved: bool)

  function IdIsNot(id: string): PendingUpload -> bool
  {
    (item: PendingUpload) => item.id != id
  }

  function IdIs(id: string): PendingUpload -> bool
  {
    (item: PendingUpload) => item.id == id
  }

  /** `prev.filter(item => item.id !== id)`. */
  function WithoutId(pending: seq<PendingUpload>, id: string): (r: seq<PendingUpload>)
    ensures |r| <= |pending|
    ensures forall item :: item in r ==> item in pending && item.id != id
  {
    FilterMembers(pending, IdIsNot(id));
    Filter(pending, IdIsNot(id))
  }

  /** How many pending uploads carry the id. */
  function CountId(pending: seq<PendingUpload>, id: string): nat
  {
    CountIf(pending, IdIs(id))
  }

  /** The "Total Uploads" figure. */
  function Total(approvedCount: int, pending: seq<PendingUpload>): int
  {
    approvedCount + |pending|
  }

  /** Removing an id leaves no item with that id and every other item, in order. */
  lemma WithoutIdRemoves(pending: seq<PendingUpload>, id: string, item: PendingUpload)
    ensures item in WithoutId(pending, id) <==> item in pending && item.id != id
    ensures Subsequence(WithoutId(pending, id), pending)
  {
    FilterMembers(pending, IdIsNot(id));
    FilterIsSubsequence(pending, IdIsNot(id));
  }

  /** The list shrinks by exactly the number of items with that id. */
  lemma WithoutIdLength(pending: seq<PendingUpload>, id: string)
    ensures |WithoutId(pending, id)| == |pending| - CountId(pending, id)
  {
    FilterLength(pending, IdIsNot(id), IdIs(id));
  }

  /** Removing an id that is not pending changes nothing. */
  lemma WithoutAbsentId(pending: seq<PendingUpload>, id: string)
    requires forall item :: item in pending ==> item.id != id
    ensures WithoutId(pending, id) == pending
  {
    FilterAll(pending, IdIsNot(id));
  }

  /** Approving bumps the counter and drops the id's items, so the total moves by
      1 - CountId: it stays put when the id is pending exactly once. */
  lemma ApproveTotal(approvedCount: int, pending: seq<PendingUpload>, id: string)
    ensures Total(approvedCount + 1, WithoutId(pending, id)) ==
            Total(approvedCount, pending) + 1 - CountId(pending, id)
    ensures CountId(pending, id) == 1 ==>
            Total(approvedCount + 1, WithoutId(pending, id)) == Total(approvedCount, pending)
  {
    WithoutIdLength(pending, id);
  }

  /** Rejecting leaves the counter, so the total drops by CountId: by one when the id is
      pending exactly once, not at all when it is absent. */
  lemma RejectTotal(approvedCount: int, pending: seq<PendingUpload>, id: string)
    ensures Total(approvedCount, WithoutId(pending, id)) ==
            Total(approvedCount, pending) - CountId(pending, id)
    ensures CountId(pending, id) == 1 ==>
            Total(approvedCount, WithoutId(pending, id)) == Total(approvedCount, pending) - 1
  {
    WithoutIdLength(pending, id);
  }

  class AdminPage {
    var pendingUploads: seq<PendingUpload>
    var approvedCount: int
    var isLoading: bool

    constructor ()
      ensures pendingUploads == [] && approvedCount == 0 && isLoading
    {
      pendingUploads, approvedCount, isLoading := [], 0, true;
    }

    /** loadData after its delay: the seed pending list, and the number of approved
        seed media items. */
    method LoadData(seedPending: seq<PendingUpload>, seedMedia: seq<MediaItem>)
      modifies this
      ensures pendingUploads == seedPending
      ensures approvedCount == |Filter(seedMedia, IsApproved())|
      ensures !isLoading
    {
      pendingUploads := seedPending;
      approvedCount := |Filter(seedMedia, IsApproved())|;
      isLoading := false;
    }

    /** handleApprove: drop the id from the pending list and count one more approval,
        whether or not the id was pending. */
    method HandleApprove(id: string)
      modifies this
      ensures pendingUploads == WithoutId(old(pendingUploads), id)
      ensures approvedCount == old(approvedCount) + 1
      ensures |pendingUploads| <= |old(pendingUploads)|
      ensures forall item :: item in pendingUploads ==> item.id != id
      ensures isLoading == old(isLoading)
    {
      FilterMembers(pendingUploads, IdIsNot(id));
      pendingUploads := WithoutId(pendingUploads, id);
      approvedCount := approvedCount + 1;
    }

    /** handleReject: drop the id from the pending list; the counter stays. */
    method HandleReject(id: string)
      modifies this
      ensures pendingUploads == WithoutId(old(pendingUploads), id)
      ensures approvedCount == old(approvedCount)
      ensures |pendingUploads| <= |old(pendingUploads)|
      ensures forall item :: item in pendingUploads ==> item.id != id
      ensures isLoading == old(isLoading)
    {
      FilterMembers(pendingUploads, IdIsNot(id));
      pendingUploads := WithoutId(pendingUploads, id);
    }

    /** The "Total Uploads" card. */
    function TotalUploads(): (n: int)
      reads this
      ensures n >= approvedCount
    {
      Total(approvedCount, pendingUploads)
    }
  }
}

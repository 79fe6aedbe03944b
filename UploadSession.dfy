/**
 * The state `QAUpload` keeps between events (js/qa-upload.js): the map from slot
 * name to uploaded-image record, the counter behind the progress bar, the submit
 * button's enabled state, and the `qa_uploaded_images` entry of localStorage.
 * Uploads, image loads and the webhook exchange are inputs to the methods.
 */
module UploadSession {
  import opened JsText
  import opened Browser
  import opened SlotNames
  import opened Submission

  /** The `qa_uploaded_images` entry, as `JSON.parse` reads it. */
  datatype Stored = Saved(images: map<string, ImageRecord>) | EmptyText | NullJson | Unparseable

  /** What `restoreUploadedImages` does with a given entry. */
  datatype RestoreAction = KeepState | Replace(images: map<string, ImageRecord>) | DropCorrupt

  /**
   * Nothing is restored from an absent, empty or null entry or from an empty object;
   * an entry that does not parse is removed; any other object replaces the map whole.
   */
  function RestoreActionFor(stored: Option<Stored>): (a: RestoreAction)
    ensures a == DropCorrupt <==> stored == Some(Unparseable)
    ensures a.Replace? <==> stored.Some? && stored.value.Saved? && stored.value.images != map[]
    ensures a.Replace? ==> a.images == stored.value.images
  {
    match stored
    case None => KeepState
    case Some(EmptyText) => KeepState
    case Some(NullJson) => KeepState
    case Some(Unparseable) => DropCorrupt
    case Some(Saved(m)) => if |m.Keys| == 0 then KeepState else Replace(m)
  }

  /** What a save writes, a restore reads back: any non-empty map survives a reload unchanged. */
  lemma SaveRestoreRoundTrip(images: map<string, ImageRecord>)
    ensures images != map[] ==> RestoreActionFor(Some(Saved(images))) == Replace(images)
    ensures images == map[] ==> RestoreActionFor(Some(Saved(images))) == KeepState
  {
    if images != map[] {
      var k :| k in images;
      assert k in images.Keys;
    }
  }

  /** The record `handleFileSelect` stores: `fox_id` is the signed-in user's id, or null. */
  function NewRecord(slot: string, imageId: string, imageUrl: string, uploadedAt: string, userId: Option<string>): (r: ImageRecord)
    ensures r.imageType == slot && r.imageUrl == imageUrl && r.imageId == imageId
    ensures NonEmpty(userId) <==> r.foxId.Some?
    ensures r.foxId.Some? ==> r.foxId == userId
  {
    ImageRecord(imageId, imageUrl, slot, uploadedAt, if NonEmpty(userId) then userId else None)
  }

  /** `saveImageRecord` goes on to the insert only with a backend client and a truthy `fox_id`. */
  predicate AttemptsInsert(hasBackend: bool, record: ImageRecord) {
    hasBackend && NonEmpty(record.foxId)
  }

  /** An upload made without a signed-in user is never inserted into the image table. */
  lemma AnonymousUploadNotInserted(hasBackend: bool, slot: string, imageId: string, imageUrl: string, uploadedAt: string, userId: Option<string>)
    ensures AttemptsInsert(hasBackend, NewRecord(slot, imageId, imageUrl, uploadedAt, userId)) <==> hasBackend && NonEmpty(userId)
  {
  }

  class QAUpload {
    var uploadedImages: map<string, ImageRecord>
    var totalUploaded: int
    /** Whether the submit button is enabled (`!submitBtn.disabled`). */
    var submitEnabled: bool
    /** localStorage `qa_uploaded_images`; None when the key is absent. */
    var storage: Option<Stored>
    /** The URL the constructor settles on. */
    const fallbackWebhookUrl: string

    /** The progress shown matches the map: the counter is its size and submit is enabled iff all 7 are in. */
    ghost predicate Counted()
      reads this
    {
      totalUploaded == |uploadedImages.Keys| && (submitEnabled <==> totalUploaded == 7)
    }

    /** With slot names as keys, a counted session enables submit exactly when no photo is missing. */
    lemma SubmitEnabledIffComplete()
      requires Counted() && uploadedImages.Keys <= RequiredSet()
      ensures submitEnabled <==> MissingSlots(uploadedImages.Keys) == []
    {
      CountSevenIffComplete(uploadedImages.Keys);
    }

    /** The map is what storage holds. */
    ghost predicate Persisted()
      reads this
    {
      storage == Some(Saved(uploadedImages))
    }

    constructor(configUrl: Option<string>, stored: Option<Stored>, buttonEnabled: bool)
      ensures uploadedImages == map[] && totalUploaded == 0
      ensures fallbackWebhookUrl == ConstructorWebhookUrl(configUrl) && fallbackWebhookUrl != ""
      ensures storage == stored && submitEnabled == buttonEnabled
    {
      uploadedImages := map[];
      totalUploaded := 0;
      fallbackWebhookUrl := ConstructorWebhookUrl(configUrl);
      storage := stored;
      submitEnabled := buttonEnabled;
    }

    /** Writes the map to storage (a failing write is not modelled). */
    method SaveUploadedImages()
      modifies this
      ensures Persisted()
      ensures uploadedImages == old(uploadedImages) && totalUploaded == old(totalUploaded)
      ensures submitEnabled == old(submitEnabled)
    {
      storage := Some(Saved(uploadedImages));
    }

    /** Recounts the map and enables submit exactly at 7 photos. */
    method UpdateProgress()
      modifies this
      ensures Counted()
      ensures uploadedImages == old(uploadedImages) && storage == old(storage)
    {
      totalUploaded := |uploadedImages.Keys|;
      submitEnabled := totalUploaded == 7;
    }

    /**
     * A file chosen for `slot`. `uploaded` is the storage URL the upload produced,
     * None when it threw; nothing changes without a file or after a failed upload.
     */
    method HandleFileSelect(slot: string, hasFile: bool, uploaded: Option<string>, imageId: string, uploadedAt: string, userId: Option<string>)
      modifies this
      ensures !hasFile || uploaded.None? ==>
                uploadedImages == old(uploadedImages) && totalUploaded == old(totalUploaded)
                && submitEnabled == old(submitEnabled) && storage == old(storage)
      ensures hasFile && uploaded.Some? ==>
                uploadedImages == old(uploadedImages)[slot := NewRecord(slot, imageId, uploaded.value, uploadedAt, userId)]
                && Counted() && Persisted()
    {
      if !hasFile {
        return;
      }
      match uploaded
      case None =>
      case Some(url) =>
        uploadedImages := uploadedImages[slot := NewRecord(slot, imageId, url, uploadedAt, userId)];
        SaveUploadedImages();
        UpdateProgress();
    }

    /** The remove button of `slot`. */
    method HandleRemove(slot: string)
      modifies this
      ensures uploadedImages == old(uploadedImages) - {slot}
      ensures Counted() && Persisted()
    {
      uploadedImages := uploadedImages - {slot};
      SaveUploadedImages();
      UpdateProgress();
    }

    /** Restores the map saved by an earlier page, as `RestoreActionFor` decides. */
    method RestoreUploadedImages()
      modifies this
      ensures match RestoreActionFor(old(storage))
              case KeepState =>
                uploadedImages == old(uploadedImages) && totalUploaded == old(totalUploaded)
                && submitEnabled == old(submitEnabled) && storage == old(storage)
              case DropCorrupt =>
                uploadedImages == old(uploadedImages) && totalUploaded == old(totalUploaded)
                && submitEnabled == old(submitEnabled) && storage == None
              case Replace(m) =>
                uploadedImages == m && Counted() && Persisted()
    {
      match RestoreActionFor(storage)
      case KeepState =>
      case DropCorrupt =>
        storage := None;
      case Replace(m) =>
        uploadedImages := m;
        UpdateProgress();
    }

    /**
     * A restored preview whose image fails to load, as written: the slot is dropped
     * and the map saved, but the progress is not recounted, so a full set that loses
     * a slot still shows 7 and keeps submit enabled.
     */
    method EvictUnloadableAsWritten(slot: string)
      modifies this
      ensures uploadedImages == old(uploadedImages) - {slot} && Persisted()
      ensures totalUploaded == old(totalUploaded) && submitEnabled == old(submitEnabled)
      ensures old(Counted()) && slot in old(uploadedImages) ==> !Counted()
    {
      uploadedImages := uploadedImages - {slot};
      SaveUploadedImages();
    }

    /** The eviction with the progress recounted, as every other change to the map does. */
    method EvictUnloadable(slot: string)
      modifies this
      ensures uploadedImages == old(uploadedImages) - {slot}
      ensures Counted() && Persisted()
    {
      uploadedImages := uploadedImages - {slot};
      SaveUploadedImages();
      UpdateProgress();
    }

    /**
     * The submit handler. The outcome is the ladder's; a 2xx exchange that is not a
     * workflow error empties the map, the counter and storage; every other outcome
     * leaves them as they were. Submit is enabled again on every exit.
     */
    method HandleSubmit(configUrl: Option<string>, loc: Location, h: HttpResult) returns (o: SubmitOutcome)
      modifies this
      ensures o == ClassifySubmission(old(uploadedImages).Keys, configUrl, fallbackWebhookUrl, loc, h)
      ensures ClearsSession(o) ==> uploadedImages == map[] && totalUploaded == 0 && storage == None
      ensures !ClearsSession(o) ==>
                uploadedImages == old(uploadedImages) && totalUploaded == old(totalUploaded) && storage == old(storage)
      ensures submitEnabled
    {
      var missing := MissingSlots(uploadedImages.Keys);
      if missing != [] {
        submitEnabled := true;
        return MissingPhotos(missing);
      }
      var url := ResolveWebhookUrl(configUrl, fallbackWebhookUrl);
      if url == "" {
        submitEnabled := true;
        return WebhookNotConfigured;
      }
      if IsProductionHost(loc) && IsLoopbackUrl(url) {
        submitEnabled := true;
        return LocalhostInProduction(url);
      }
      submitEnabled := false;
      o := ClassifyResponse(h);
      if ClearsSession(o) {
        uploadedImages := map[];
        totalUploaded := 0;
        storage := None;
        UpdateProgress();
      }
      submitEnabled := true;
    }
  }
}

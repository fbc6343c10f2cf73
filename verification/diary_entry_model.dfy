/** The diary entry record (server/models/diaryEntryModel.js): an owner
    reference, the entry text, an optional image URL, an optional free-form
    feeling label and the two timestamps the schema's `timestamps` option adds. */
module DiaryEntryModel {
  import opened Common

  datatype DiaryEntry = DiaryEntry(
    id: EntryId,
    user: UserId,              // required reference to the owning User
    text: string,              // required
    image: Option<string>,     // optional URL
    feeling: Option<string>,   // optional, any string (not a closed set of moods)
    createdAt: int,            // milliseconds, assigned by the server
    updatedAt: int)

  /** Mongoose's `required` validator on a String path refuses the empty
      string, so a stored entry always has non-empty text. The owner is a
      `UserId` and so is always present; image and feeling may be absent and
      may hold any string. */
  function ValidEntry(e: DiaryEntry): (r: bool)
    ensures r <==> |e.text| > 0
  {
    e.text != ""
  }

  /** Builds the document `new DiaryEntry({user, text, image, feeling})` saved
      at time `now`: both timestamps are set to `now`. */
  function NewEntry(id: EntryId, user: UserId, text: string, image: Option<string>,
                    feeling: Option<string>, now: int): (e: DiaryEntry)
    requires text != ""
    ensures ValidEntry(e)
    ensures e.id == id && e.user == user && e.text == text
    ensures e.image == image && e.feeling == feeling
    ensures e.createdAt == now && e.updatedAt == now
  {
    DiaryEntry(id, user, text, image, feeling, now, now)
  }

  /** Any label is accepted as a feeling: validity never depends on it. */
  lemma FeelingIsFreeForm(e: DiaryEntry, f: Option<string>)
    ensures ValidEntry(e) <==> ValidEntry(e.(feeling := f))
  {
  }

  /** Validity does not depend on the image either. */
  lemma ImageIsOptional(e: DiaryEntry, img: Option<string>)
    ensures ValidEntry(e) <==> ValidEntry(e.(image := img))
  {
  }
}

/** The diary entry handlers (server/controllers/diaryEntryController.js) as
    methods on an in-memory entry collection. Each handler but the listing
    answers with the HTTP status it sends; the caller's id is what the authentication
    middleware put in `req.user._id`; `now` is the server time of the save. */
module DiaryEntryController {
  import opened Common
  import opened DiaryEntryModel
  import opened EntryQuery

  /** The field assignments of an update (`entry.text = text || entry.text`
      and likewise for image and feeling): a supplied value replaces the old
      one only when it is truthy. */
  function MergeFields(e: DiaryEntry, text: Option<string>, image: Option<string>,
                       feeling: Option<string>): (r: DiaryEntry)
    ensures r.id == e.id && r.user == e.user
    ensures r.createdAt == e.createdAt && r.updatedAt == e.updatedAt
    ensures r.text == (if Truthy(text) then text.value else e.text)
    ensures r.image == (if Truthy(image) then image else e.image)
    ensures r.feeling == (if Truthy(feeling) then feeling else e.feeling)
  {
    e.(text := OrElse(text, e.text), image := Or(image, e.image), feeling := Or(feeling, e.feeling))
  }

  /** `entry.save()` after the assignments: the timestamps plugin moves
      `updatedAt` to `now` only when some field actually changed. */
  function SaveUpdate(e: DiaryEntry, text: Option<string>, image: Option<string>,
                      feeling: Option<string>, now: int): (r: DiaryEntry)
    ensures r.id == e.id && r.user == e.user && r.createdAt == e.createdAt
    ensures r.text == (if Truthy(text) then text.value else e.text)
    ensures r.image == (if Truthy(image) then image else e.image)
    ensures r.feeling == (if Truthy(feeling) then feeling else e.feeling)
    ensures r.updatedAt == (if r.text == e.text && r.image == e.image && r.feeling == e.feeling
                            then e.updatedAt else now)
  {
    var m := MergeFields(e, text, image, feeling);
    if m == e then e else m.(updatedAt := now)
  }

  /** An update never changes the owner, the id or the creation time, and
      keeps a valid entry valid. */
  lemma SaveUpdateKeepsIdentity(e: DiaryEntry, text: Option<string>, image: Option<string>,
                                feeling: Option<string>, now: int)
    requires ValidEntry(e)
    ensures var r := SaveUpdate(e, text, image, feeling, now);
      && ValidEntry(r)
      && r.id == e.id && r.user == e.user && r.createdAt == e.createdAt
  {
  }

  /** Sending the same update twice leaves the entry as sending it once did. */
  lemma SaveUpdateIdempotent(e: DiaryEntry, text: Option<string>, image: Option<string>,
                             feeling: Option<string>, now: int, later: int)
    ensures var once := SaveUpdate(e, text, image, feeling, now);
      SaveUpdate(once, text, image, feeling, later) == once
  {
    var m := MergeFields(e, text, image, feeling);
    var once := SaveUpdate(e, text, image, feeling, now);
    assert MergeFields(once, text, image, feeling) == once;
  }

  /** The entries collection. */
  class EntryStore {
    var entries: map<EntryId, DiaryEntry>
    var nextId: EntryId

    /** Every document is stored under its own id, satisfies the schema, and
        ids below `nextId` are the only ones in use. */
    ghost predicate Valid()
      reads this
    {
      && WellKeyed(entries)
      && (forall id :: id in entries ==> ValidEntry(entries[id]))
      && (forall id :: id in entries ==> id < nextId)
    }

    constructor ()
      ensures Valid() && entries == map[]
    {
      entries := map[];
      nextId := 0;
    }

    /** getDiaryEntries: the caller's entries, newest first. */
    method List(caller: UserId) returns (r: seq<DiaryEntry>)
      requires Valid()
      ensures IsAnswer(entries, caller, NoFilter, Descending, r)
      ensures forall x :: x in r ==> x.user == caller
    {
      r := Find(entries, caller, NoFilter, Descending);
    }

    /** createDiaryEntry: 400 without text, otherwise 201 with a new entry
        owned by the caller. */
    method Create(caller: UserId, text: Option<string>, image: Option<string>,
                  feeling: Option<string>, now: int)
      returns (status: int, created: Option<DiaryEntry>)
      requires Valid()
      modifies this
      ensures Valid()
      ensures !Truthy(text) ==> status == BAD_REQUEST && created == None && entries == old(entries)
      ensures Truthy(text) ==>
        && status == CREATED && created.Some?
        && created.value.id !in old(entries)
        && created.value == NewEntry(created.value.id, caller, text.value, image, feeling, now)
        && entries == old(entries)[created.value.id := created.value]
    {
      if !Truthy(text) {
        return BAD_REQUEST, None;
      }
      var e := NewEntry(nextId, caller, text.value, image, feeling, now);
      entries := entries[nextId := e];
      nextId := nextId + 1;
      return CREATED, Some(e);
    }

    /** updateDiaryEntry: 404 for an unknown id, then 401 when the caller is
        not the owner, otherwise the merged entry is saved. */
    method Update(caller: UserId, id: EntryId, text: Option<string>, image: Option<string>,
                  feeling: Option<string>, now: int)
      returns (status: int, updated: Option<DiaryEntry>)
      requires Valid()
      modifies this
      ensures Valid()
      ensures id !in old(entries) ==>
        status == NOT_FOUND && updated == None && entries == old(entries)
      ensures id in old(entries) && old(entries)[id].user != caller ==>
        status == UNAUTHORIZED && updated == None && entries == old(entries)
      ensures id in old(entries) && old(entries)[id].user == caller ==>
        && status == OK
        && updated == Some(SaveUpdate(old(entries)[id], text, image, feeling, now))
        && entries == old(entries)[id := updated.value]
    {
      if id !in entries {
        return NOT_FOUND, None;
      }
      var entry := entries[id];
      if entry.user != caller {
        return UNAUTHORIZED, None;
      }
      var saved := SaveUpdate(entry, text, image, feeling, now);
      SaveUpdateKeepsIdentity(entry, text, image, feeling, now);
      entries := entries[id := saved];
      return OK, Some(saved);
    }

    /** deleteDiaryEntry: 404 for an unknown id, then 401 when the caller is
        not the owner, otherwise exactly that entry is removed. */
    method Delete(caller: UserId, id: EntryId) returns (status: int)
      requires Valid()
      modifies this
      ensures Valid()
      ensures id !in old(entries) ==> status == NOT_FOUND && entries == old(entries)
      ensures id in old(entries) && old(entries)[id].user != caller ==>
        status == UNAUTHORIZED && entries == old(entries)
      ensures id in old(entries) && old(entries)[id].user == caller ==>
        status == OK && entries == old(entries) - {id}
    {
      if id !in entries {
        return NOT_FOUND;
      }
      if entries[id].user != caller {
        return UNAUTHORIZED;
      }
      entries := entries - {id};
      return OK;
    }

    /** `DiaryEntry.deleteMany({user: owner})`: removes every entry of the
        owner and keeps every other entry as it was. */
    method DeleteMany(owner: UserId)
      requires Valid()
      modifies this
      ensures Valid()
      ensures entries == OthersEntries(old(entries), owner)
    {
      entries := OthersEntries(entries, owner);
    }
  }

  /** The entries not owned by `owner`. */
  function OthersEntries(entries: map<EntryId, DiaryEntry>, owner: UserId): (r: map<EntryId, DiaryEntry>)
    ensures forall id :: id in r <==> id in entries && entries[id].user != owner
    ensures forall id :: id in r ==> r[id] == entries[id]
  {
    map id | id in entries && entries[id].user != owner :: entries[id]
  }
}

/** The client's diary state (client/src/features/diary/diarySlice.js): the
    reducers of the four entry requests over a record holding the entries
    list and the request flags. Each request's network call is abstract; a
    reducer receives the action it would dispatch. */
module DiarySlice {
  import opened Common
  import opened DiaryEntryModel

  /** The whole slice state as one value, to state what a reducer keeps. */
  datatype DiaryView = DiaryView(
    entries: seq<DiaryEntry>, isError: bool, isSuccess: bool, isLoading: bool,
    isDeleting: Option<EntryId>, message: string)

  const INITIAL: DiaryView := DiaryView([], false, false, false, None, "")

  /** The body the client receives for a deletion: the server's reply is
      `{message}`, so its `id` is absent. */
  datatype DeletePayload = DeletePayload(id: Option<EntryId>, message: string)

  /** `entries.filter(entry => entry._id !== id)`; an absent id equals no `_id`. */
  function RemoveId(s: seq<DiaryEntry>, id: Option<EntryId>): (r: seq<DiaryEntry>)
    ensures forall x :: x in r <==> x in s && Some(x.id) != id
  {
    if s == [] then []
    else if Some(s[0].id) != id then [s[0]] + RemoveId(s[1..], id)
    else RemoveId(s[1..], id)
  }

  /** Filtering works piecewise, so the kept entries stay in their order. */
  lemma {:induction false} RemoveIdAppend(a: seq<DiaryEntry>, b: seq<DiaryEntry>, id: Option<EntryId>)
    ensures RemoveId(a + b, id) == RemoveId(a, id) + RemoveId(b, id)
  {
    if a == [] {
      assert a + b == b;
    } else {
      assert (a + b)[1..] == a[1..] + b;
      RemoveIdAppend(a[1..], b, id);
    }
  }

  /** Without an id nothing is removed: the reply the server actually sends
      leaves the list as it was. */
  lemma {:induction false} RemoveAbsentIdKeepsAll(s: seq<DiaryEntry>)
    ensures RemoveId(s, None) == s
  {
    if s != [] {
      RemoveAbsentIdKeepsAll(s[1..]);
    }
  }

  /** `findIndex(entry => entry._id === id)`: the first position holding the
      id, or -1. */
  method FindIndex(s: seq<DiaryEntry>, id: EntryId) returns (index: int)
    ensures -1 <= index < |s|
    ensures index == -1 <==> forall j :: 0 <= j < |s| ==> s[j].id != id
    ensures index >= 0 ==> s[index].id == id && forall j :: 0 <= j < index ==> s[j].id != id
  {
    var i := 0;
    while i < |s|
      invariant 0 <= i <= |s|
      invariant forall j :: 0 <= j < i ==> s[j].id != id
    {
      if s[i].id == id {
        return i;
      }
      i := i + 1;
    }
    return -1;
  }

  /** The first entry with the payload's id replaced by the payload. */
  function ReplaceFirst(s: seq<DiaryEntry>, e: DiaryEntry): (r: seq<DiaryEntry>)
    ensures |r| == |s|
  {
    if s == [] then []
    else if s[0].id == e.id then [e] + s[1..]
    else [s[0]] + ReplaceFirst(s[1..], e)
  }

  /** ReplaceFirst changes only the first match, and nothing when there is none. */
  lemma {:induction false} ReplaceFirstAt(s: seq<DiaryEntry>, e: DiaryEntry, k: int)
    requires -1 <= k < |s|
    requires k == -1 <==> forall j :: 0 <= j < |s| ==> s[j].id != e.id
    requires k >= 0 ==> s[k].id == e.id && forall j :: 0 <= j < k ==> s[j].id != e.id
    ensures k == -1 ==> ReplaceFirst(s, e) == s
    ensures k >= 0 ==> ReplaceFirst(s, e) == s[k := e]
  {
    if s != [] {
      if s[0].id == e.id {
        assert k == 0;
      } else {
        ReplaceFirstAt(s[1..], e, if k == -1 then -1 else k - 1);
        if k >= 0 {
          assert [s[0]] + s[1..][k - 1 := e] == s[k := e];
        }
      }
    }
  }

  class DiaryState {
    var entries: seq<DiaryEntry>
    var isError: bool
    var isSuccess: bool
    var isLoading: bool
    var isDeleting: Option<EntryId>
    var message: string

    ghost function View(): DiaryView
      reads this
    {
      DiaryView(entries, isError, isSuccess, isLoading, isDeleting, message)
    }

    constructor ()
      ensures View() == INITIAL
    {
      entries, isError, isSuccess, isLoading, isDeleting, message := [], false, false, false, None, "";
    }

    /** reset: back to the initial state. */
    method Reset()
      modifies this
      ensures View() == INITIAL
    {
      entries, isError, isSuccess, isLoading, isDeleting, message := [], false, false, false, None, "";
    }

    /** createEntry.pending, getEntries.pending and updateEntry.pending. */
    method RequestPending()
      modifies this
      ensures View() == old(View()).(isLoading := true)
    {
      isLoading := true;
    }

    /** createEntry.rejected, getEntries.rejected and updateEntry.rejected:
        the list is untouched. */
    method RequestRejected(payload: string)
      modifies this
      ensures View() == old(View()).(isLoading := false, isError := true, message := payload)
    {
      isLoading := false;
      isError := true;
      message := payload;
    }

    /** createEntry.fulfilled: the new entry goes in front. */
    method CreateFulfilled(payload: DiaryEntry)
      modifies this
      ensures View() == old(View()).(isLoading := false, isSuccess := true, entries := [payload] + old(entries))
      ensures |entries| == |old(entries)| + 1 && entries[0] == payload && entries[1..] == old(entries)
    {
      isLoading := false;
      isSuccess := true;
      entries := [payload] + entries;
    }

    /** getEntries.fulfilled: the list is replaced by the payload. */
    method GetFulfilled(payload: seq<DiaryEntry>)
      modifies this
      ensures View() == old(View()).(isLoading := false, isSuccess := true, entries := payload)
    {
      isLoading := false;
      isSuccess := true;
      entries := payload;
    }

    /** deleteEntry.pending: remember which entry is being deleted. */
    method DeletePending(id: EntryId)
      modifies this
      ensures View() == old(View()).(isDeleting := Some(id))
    {
      isDeleting := Some(id);
    }

    /** deleteEntry.fulfilled: drop every entry with the payload's id. */
    method DeleteFulfilled(payload: DeletePayload)
      modifies this
      ensures View() == old(View()).(isDeleting := None, isSuccess := true,
                                     entries := RemoveId(old(entries), payload.id))
    {
      isDeleting := None;
      isSuccess := true;
      entries := RemoveId(entries, payload.id);
    }

    /** deleteEntry.rejected. */
    method DeleteRejected(payload: string)
      modifies this
      ensures View() == old(View()).(isDeleting := None, isError := true, message := payload)
    {
      isDeleting := None;
      isError := true;
      message := payload;
    }

    /** updateEntry.fulfilled: the first entry with the payload's id is replaced. */
    method UpdateFulfilled(payload: DiaryEntry)
      modifies this
      ensures View() == old(View()).(isLoading := false, isSuccess := true,
                                     entries := ReplaceFirst(old(entries), payload))
    {
      isLoading := false;
      isSuccess := true;
      var index := FindIndex(entries, payload.id);
      ReplaceFirstAt(entries, payload, index);
      if index != -1 {
        entries := entries[index := payload];
      }
    }
  }
}

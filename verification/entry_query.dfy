/** The entry query the three server controllers issue:
    `DiaryEntry.find({user, createdAt: {...}}).sort({createdAt: ±1})`
    (server/controllers/diaryEntryController.js:10,
    server/controllers/aiController.js:23-35 and 91-103,
    server/controllers/exportController.js:6-28). The database is a map from
    id to entry; the query walks its keys and inserts each matching entry at
    its place in creation order. */
module EntryQuery {
  import opened Common
  import opened DiaryEntryModel

  /** The `createdAt` part of a query: none, `$gte` only, or `$gte` and `$lte`. */
  datatype DateFilter = NoFilter | From(start: int) | Between(start: int, end: int)

  /** `$gte` and `$lte` are both inclusive. */
  predicate InRange(t: int, f: DateFilter) {
    match f
    case NoFilter => true
    case From(s) => s <= t
    case Between(s, e) => s <= t <= e
  }

  predicate Matches(e: DiaryEntry, owner: UserId, f: DateFilter) {
    e.user == owner && InRange(e.createdAt, f)
  }

  /** `sort({createdAt: 1})` is ascending, `sort({createdAt: -1})` descending. */
  datatype Order = Ascending | Descending

  predicate InOrder(a: DiaryEntry, b: DiaryEntry, order: Order) {
    if order == Ascending then a.createdAt <= b.createdAt else a.createdAt >= b.createdAt
  }

  predicate Sorted(s: seq<DiaryEntry>, order: Order) {
    forall i, j :: 0 <= i < j < |s| ==> InOrder(s[i], s[j], order)
  }

  /** The database keys every document by its own `_id`. */
  predicate WellKeyed(store: map<EntryId, DiaryEntry>) {
    forall id :: id in store ==> store[id].id == id
  }

  predicate DistinctIds(s: seq<DiaryEntry>) {
    forall i, j :: 0 <= i < j < |s| ==> s[i].id != s[j].id
  }

  /** `r` is a correct answer to the query: exactly the stored entries that
      match, each once, in the requested creation order. */
  ghost function IsAnswer(store: map<EntryId, DiaryEntry>, owner: UserId, f: DateFilter,
                          order: Order, r: seq<DiaryEntry>): (ok: bool)
    ensures ok ==> forall x :: x in r ==> x.user == owner && InRange(x.createdAt, f)
    ensures ok ==> forall x :: x in r ==> x in store.Values
    ensures ok && r == [] ==> forall id :: id in store ==> !Matches(store[id], owner, f)
  {
    && (forall x :: x in r ==> x.id in store && store[x.id] == x && Matches(x, owner, f))
    && (forall id :: id in store && Matches(store[id], owner, f) ==> store[id] in r)
    && DistinctIds(r)
    && Sorted(r, order)
  }

  /** Where `e` goes in the sorted `s`: after every entry strictly before it. */
  function InsertionPoint(s: seq<DiaryEntry>, e: DiaryEntry, order: Order): (k: nat)
    ensures k <= |s|
    ensures forall i :: 0 <= i < k ==> !InOrder(e, s[i], order)
    ensures k < |s| ==> InOrder(e, s[k], order)
  {
    if s == [] || InOrder(e, s[0], order) then 0
    else 1 + InsertionPoint(s[1..], e, order)
  }

  function Insert(s: seq<DiaryEntry>, e: DiaryEntry, order: Order): (r: seq<DiaryEntry>)
  {
    var k := InsertionPoint(s, e, order);
    s[..k] + [e] + s[k..]
  }

  /** Inserting adds exactly `e`, wherever it goes. */
  lemma InsertMembers(s: seq<DiaryEntry>, e: DiaryEntry, order: Order)
    ensures forall x :: x in Insert(s, e, order) <==> x == e || x in s
  {
    var k := InsertionPoint(s, e, order);
    assert s == s[..k] + s[k..];
  }

  /** Inserting keeps the sequence sorted and adds exactly `e`. */
  lemma InsertSorted(s: seq<DiaryEntry>, e: DiaryEntry, order: Order)
    requires Sorted(s, order)
    ensures var r := Insert(s, e, order);
      && |r| == |s| + 1
      && Sorted(r, order)
      && (forall x :: x in r <==> x == e || x in s)
  {
    var k := InsertionPoint(s, e, order);
    var r := Insert(s, e, order);
    assert forall i :: 0 <= i < k ==> r[i] == s[i];
    assert r[k] == e;
    assert forall i :: k < i < |r| ==> r[i] == s[i - 1];
    forall i, j | 0 <= i < j < |r| ensures InOrder(r[i], r[j], order) {
      if i < k && k < j {
        assert InOrder(s[i], e, order);
      } else if i == k && k < j {
        assert InOrder(e, s[k], order);
      }
    }
  }

  /** Inserting an entry whose id is new keeps the ids distinct. */
  lemma InsertDistinct(s: seq<DiaryEntry>, e: DiaryEntry, order: Order)
    requires DistinctIds(s)
    requires forall x :: x in s ==> x.id != e.id
    ensures DistinctIds(Insert(s, e, order))
  {
    var k := InsertionPoint(s, e, order);
    var r := Insert(s, e, order);
    assert forall i :: 0 <= i < k ==> r[i] == s[i];
    assert r[k] == e;
    assert forall i :: k < i < |r| ==> r[i] == s[i - 1];
  }

  /** Everything produced so far is a matching stored entry among the keys in `seen`. */
  ghost predicate SoundSoFar(store: map<EntryId, DiaryEntry>, owner: UserId, f: DateFilter,
                             seen: set<EntryId>, r: seq<DiaryEntry>)
  {
    forall x :: x in r ==> x.id in seen && x.id in store && store[x.id] == x && Matches(x, owner, f)
  }

  /** Every matching stored entry among the keys in `seen` has been produced. */
  ghost predicate CompleteSoFar(store: map<EntryId, DiaryEntry>, owner: UserId, f: DateFilter,
                                seen: set<EntryId>, r: seq<DiaryEntry>)
  {
    forall id :: id in seen && id in store && Matches(store[id], owner, f) ==> store[id] in r
  }

  /** What the query has produced after visiting the keys in `seen`. */
  ghost predicate AnswerSoFar(store: map<EntryId, DiaryEntry>, owner: UserId, f: DateFilter,
                              order: Order, seen: set<EntryId>, r: seq<DiaryEntry>)
  {
    && SoundSoFar(store, owner, f, seen, r)
    && CompleteSoFar(store, owner, f, seen, r)
    && DistinctIds(r)
    && Sorted(r, order)
  }

  lemma VisitSound(store: map<EntryId, DiaryEntry>, owner: UserId, f: DateFilter, order: Order,
                   seen: set<EntryId>, r: seq<DiaryEntry>, id: EntryId)
    requires WellKeyed(store) && id in store
    requires SoundSoFar(store, owner, f, seen, r)
    ensures var e := store[id];
      SoundSoFar(store, owner, f, seen + {id}, if Matches(e, owner, f) then Insert(r, e, order) else r)
  {
    var e := store[id];
    if Matches(e, owner, f) {
      InsertMembers(r, e, order);
    }
  }

  lemma VisitComplete(store: map<EntryId, DiaryEntry>, owner: UserId, f: DateFilter, order: Order,
                      seen: set<EntryId>, r: seq<DiaryEntry>, id: EntryId)
    requires id in store
    requires CompleteSoFar(store, owner, f, seen, r)
    ensures var e := store[id];
      CompleteSoFar(store, owner, f, seen + {id}, if Matches(e, owner, f) then Insert(r, e, order) else r)
  {
    var e := store[id];
    if Matches(e, owner, f) {
      InsertMembers(r, e, order);
    }
  }

  /** Visiting one more key keeps the partial answer correct. */
  lemma VisitKey(store: map<EntryId, DiaryEntry>, owner: UserId, f: DateFilter, order: Order,
                 seen: set<EntryId>, r: seq<DiaryEntry>, id: EntryId)
    requires WellKeyed(store) && id in store && id !in seen
    requires AnswerSoFar(store, owner, f, order, seen, r)
    ensures var e := store[id];
      AnswerSoFar(store, owner, f, order, seen + {id},
                  if Matches(e, owner, f) then Insert(r, e, order) else r)
  {
    var e := store[id];
    VisitSound(store, owner, f, order, seen, r, id);
    VisitComplete(store, owner, f, order, seen, r, id);
    if Matches(e, owner, f) {
      InsertSorted(r, e, order);
      assert forall x :: x in r ==> x.id in seen;
      InsertDistinct(r, e, order);
    }
  }

  /** Answers the query. The database's own order among entries with equal
      `createdAt` is not modelled: any order of such ties is an answer. */
  method Find(store: map<EntryId, DiaryEntry>, owner: UserId, f: DateFilter, order: Order)
    returns (r: seq<DiaryEntry>)
    requires WellKeyed(store)
    ensures IsAnswer(store, owner, f, order, r)
  {
    r := [];
    var todo := store.Keys;
    while todo != {}
      invariant todo <= store.Keys
      invariant AnswerSoFar(store, owner, f, order, store.Keys - todo, r)
      decreases todo
    {
      var id :| id in todo;
      var e := store[id];
      VisitKey(store, owner, f, order, store.Keys - todo, r, id);
      if Matches(e, owner, f) {
        r := Insert(r, e, order);
      }
      assert store.Keys - (todo - {id}) == (store.Keys - todo) + {id};
      todo := todo - {id};
    }
  }
}

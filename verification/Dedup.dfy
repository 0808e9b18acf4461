/**
 * Removing duplicate rows before unique constraints are created.
 *
 * A table is a set of rows. Every statement is a self-join DELETE that removes a row when
 * another row of the same key comes before it in a strict order on (timestamp, ctid); what a
 * statement looks at in a row is its `Entry`. As in SQL, a comparison with a null is not true:
 * a row with a null key matches nothing, a row with a null timestamp beats nothing and is
 * beaten by nothing.
 */
module Dedup {
  import opened Wrappers

  datatype Keep = Oldest | Newest

  datatype Entry = Entry(key: Option<seq<string>>, ts: Option<int>, ctid: nat)

  /** The condition under which `a` is deleted because of `b`. */
  predicate Beaten(a: Entry, b: Entry, keep: Keep) {
    && a.key.Some? && a.key == b.key
    && a.ts.Some? && b.ts.Some?
    && (|| (if keep.Oldest? then a.ts.value > b.ts.value else a.ts.value < b.ts.value)
        || (a.ts.value == b.ts.value && a.ctid > b.ctid))
  }

  predicate Loses<R(==)>(rows: set<R>, entry: R -> Entry, keep: Keep, a: R) {
    exists b :: b in rows && Beaten(entry(a), entry(b), keep)
  }

  /** The rows one self-join DELETE leaves. */
  function Deduplicated<R>(rows: set<R>, entry: R -> Entry, keep: Keep): set<R> {
    set a | a in rows && !Loses(rows, entry, keep, a)
  }

  predicate SameKey(a: Entry, b: Entry) { a.key.Some? && a.key == b.key }

  /** What the constraint asks: no two rows with the same non-null key. */
  predicate Unique<R>(rows: set<R>, entry: R -> Entry) {
    forall a, b :: a in rows && b in rows && SameKey(entry(a), entry(b)) ==> a == b
  }

  /** A ctid names one row of a table. */
  predicate DistinctCtids<R>(rows: set<R>, entry: R -> Entry) {
    forall a, b :: a in rows && b in rows && entry(a).ctid == entry(b).ctid ==> a == b
  }

  /** No row with a null timestamp shares its key with another row. */
  predicate NoNullBesideAnother<R>(rows: set<R>, entry: R -> Entry) {
    forall a, b :: a in rows && b in rows && a != b && SameKey(entry(a), entry(b)) ==> entry(a).ts.Some?
  }

  // ----- one statement --------------------------------------------------------------

  lemma BeatenIsTransitive(a: Entry, b: Entry, c: Entry, keep: Keep)
    requires Beaten(a, b, keep) && Beaten(b, c, keep)
    ensures Beaten(a, c, keep)
  {
  }

  lemma BeatenIsTotal(a: Entry, b: Entry, keep: Keep)
    requires SameKey(a, b) && a.ts.Some? && b.ts.Some? && a.ctid != b.ctid
    ensures Beaten(a, b, keep) <==> !Beaten(b, a, keep)
  {
  }

  function Betters<R>(rows: set<R>, entry: R -> Entry, keep: Keep, a: R): set<R> {
    set b | b in rows && Beaten(entry(a), entry(b), keep)
  }

  /** Any row either survives or is beaten by a row that survives. */
  lemma {:induction false} LosersHaveAWinner<R>(rows: set<R>, entry: R -> Entry, keep: Keep, a: R) returns (best: R)
    requires a in rows
    ensures best in Deduplicated(rows, entry, keep)
    ensures best == a || Beaten(entry(a), entry(best), keep)
    decreases Betters(rows, entry, keep, a)
  {
    if !Loses(rows, entry, keep, a) {
      return a;
    }
    var b :| b in rows && Beaten(entry(a), entry(b), keep);
    assert b in Betters(rows, entry, keep, a) && b !in Betters(rows, entry, keep, b);
    forall c | c in Betters(rows, entry, keep, b) ensures c in Betters(rows, entry, keep, a) {
      BeatenIsTransitive(entry(a), entry(b), entry(c), keep);
    }
    best := LosersHaveAWinner(rows, entry, keep, b);
  }

  /** No key disappears, null timestamps or not. */
  lemma KeysArePreserved<R>(rows: set<R>, entry: R -> Entry, keep: Keep, key: Option<seq<string>>)
    ensures (exists a :: a in rows && entry(a).key == key)
       <==> (exists a :: a in Deduplicated(rows, entry, keep) && entry(a).key == key)
  {
    if a :| a in rows && entry(a).key == key {
      var best := LosersHaveAWinner(rows, entry, keep, a);
      assert entry(best).key == key;
    }
  }

  /** A survivor is the extremal row of its key: it comes before every other in the strict order. */
  lemma SurvivorBeatsTheRest<R>(rows: set<R>, entry: R -> Entry, keep: Keep, a: R, b: R)
    requires DistinctCtids(rows, entry)
    requires a in Deduplicated(rows, entry, keep) && b in rows && a != b && SameKey(entry(a), entry(b))
    requires entry(a).ts.Some? && entry(b).ts.Some?
    ensures Beaten(entry(b), entry(a), keep)
  {
    BeatenIsTotal(entry(a), entry(b), keep);
  }

  /** Where every timestamp is known, each row's key keeps exactly one row. */
  lemma ExactlyOneSurvivor<R>(rows: set<R>, entry: R -> Entry, keep: Keep, a: R) returns (best: R)
    requires DistinctCtids(rows, entry) && a in rows && entry(a).key.Some?
    requires forall b :: b in rows && SameKey(entry(a), entry(b)) ==> entry(b).ts.Some?
    ensures best in Deduplicated(rows, entry, keep) && SameKey(entry(a), entry(best))
    ensures forall b :: b in rows && b != best && SameKey(entry(a), entry(b)) ==>
              b !in Deduplicated(rows, entry, keep) && Beaten(entry(b), entry(best), keep)
  {
    best := LosersHaveAWinner(rows, entry, keep, a);
    forall b | b in rows && b != best && SameKey(entry(a), entry(b))
      ensures b !in Deduplicated(rows, entry, keep) && Beaten(entry(b), entry(best), keep)
    {
      SurvivorBeatsTheRest(rows, entry, keep, best, b);
      assert Loses(rows, entry, keep, b);
    }
  }

  /** Rows outside the statement, and rows without a timestamp, are never deleted. */
  lemma NullRowsSurvive<R>(rows: set<R>, entry: R -> Entry, keep: Keep, a: R)
    requires a in rows && (entry(a).key.None? || entry(a).ts.None?)
    ensures a in Deduplicated(rows, entry, keep)
  {
    assert forall b :: b in rows ==> !Beaten(entry(a), entry(b), keep);
  }

  /**
   * The constraint can be created after the DELETE if and only if no row with a null timestamp
   * shared its key with another row before it.
   */
  lemma UniqueAfterwardsIffNoNullBeside<R>(rows: set<R>, entry: R -> Entry, keep: Keep)
    requires DistinctCtids(rows, entry)
    ensures Unique(Deduplicated(rows, entry, keep), entry) <==> NoNullBesideAnother(rows, entry)
  {
    var kept := Deduplicated(rows, entry, keep);
    if NoNullBesideAnother(rows, entry) {
      forall a, b | a in kept && b in kept && SameKey(entry(a), entry(b)) ensures a == b {
        if a != b {
          SurvivorBeatsTheRest(rows, entry, keep, a, b);
        }
      }
    } else {
      var a, b :| a in rows && b in rows && a != b && SameKey(entry(a), entry(b)) && entry(a).ts.None?;
      NullRowsSurvive(rows, entry, keep, a);
      var best := LosersHaveAWinner(rows, entry, keep, b);
      assert SameKey(entry(a), entry(best)) && best != a;
    }
  }

  // ----- the five tables --------------------------------------------------------------

  type Guid = string

  datatype ListItem = ListItem(ctid: nat, listGuid: Guid, itemGuid: Guid, itemType: string, createdAt: Option<int>)
  datatype Viewing = Viewing(ctid: nat, userGuid: Guid, mediaItemGuid: Guid, lastWatchedAt: int)
  datatype List = List(ctid: nat, guid: Guid, listType: string, ownerGuid: Option<Guid>, createdAt: Option<int>)
  datatype ExternalId = ExternalId(ctid: nat, provider: string, externalId: string, createdAt: int)
  datatype Download = Download(ctid: nat, releaseLinkGuid: Option<Guid>, status: string, createdAt: Option<int>)

  function ListItemEntry(r: ListItem): Entry { Entry(Some([r.listGuid, r.itemGuid, r.itemType]), r.createdAt, r.ctid) }

  function ViewingEntry(r: Viewing): Entry { Entry(Some([r.userGuid, r.mediaItemGuid]), Some(r.lastWatchedAt), r.ctid) }

  predicate IsFavorites(r: List) { r.listType == "FAVORITES" }

  function FavoritesEntry(r: List): Entry {
    Entry(if IsFavorites(r) && r.ownerGuid.Some? then Some([r.ownerGuid.value]) else None, r.createdAt, r.ctid)
  }

  function ExternalIdEntry(r: ExternalId): Entry { Entry(Some([r.provider, r.externalId]), Some(r.createdAt), r.ctid) }

  predicate IsActive(r: Download) { r.status != "Failed" && r.status != "Imported" && r.status != "Completed" }

  function DownloadEntry(r: Download): Entry {
    Entry(if IsActive(r) && r.releaseLinkGuid.Some? then Some([r.releaseLinkGuid.value]) else None, r.createdAt, r.ctid)
  }

  /** Deleting a list deletes the items on it. */
  function Cascaded(items: set<ListItem>, deleted: set<List>): set<ListItem> {
    set i | i in items && forall l :: l in deleted ==> l.guid != i.listGuid
  }

  datatype Tables = Tables(
    listItems: set<ListItem>, viewings: set<Viewing>, lists: set<List>,
    externalIds: set<ExternalId>, downloads: set<Download>
  )

  predicate Stored(t: Tables) {
    && DistinctCtids(t.listItems, ListItemEntry) && DistinctCtids(t.viewings, ViewingEntry)
    && DistinctCtids(t.lists, FavoritesEntry) && DistinctCtids(t.externalIds, ExternalIdEntry)
    && DistinctCtids(t.downloads, DownloadEntry)
    && forall a, b :: a in t.lists && b in t.lists && a.guid == b.guid ==> a == b
  }

  function KeptLists(t: Tables): set<List> { Deduplicated(t.lists, FavoritesEntry, Oldest) }

  function KeptItems(t: Tables): set<ListItem> {
    Cascaded(Deduplicated(t.listItems, ListItemEntry, Oldest), t.lists - KeptLists(t))
  }

  /** What the whole migration leaves when it goes through. */
  function Migrated(t: Tables): Tables {
    Tables(
      KeptItems(t),
      Deduplicated(t.viewings, ViewingEntry, Newest),
      KeptLists(t),
      Deduplicated(t.externalIds, ExternalIdEntry, Oldest),
      Deduplicated(t.downloads, DownloadEntry, Newest))
  }

  /** What a maintainer can check beforehand, on the three tables whose timestamp may be null. */
  predicate CanMigrate(t: Tables) {
    && NoNullBesideAnother(t.listItems, ListItemEntry)
    && NoNullBesideAnother(t.lists, FavoritesEntry)
    && NoNullBesideAnother(t.downloads, DownloadEntry)
  }

  class Database {
    var tables: Tables

    constructor (t: Tables)
      ensures tables == t
    {
      tables := t;
    }

    /** The statements run in one transaction: a constraint that cannot be created undoes them all. */
    method Upgrade() returns (ok: bool)
      requires Stored(tables)
      modifies this
      ensures ok <==> CanMigrate(old(tables))
      ensures tables == if ok then Migrated(old(tables)) else old(tables)
    {
      var before := tables;

      UniqueAfterwardsIffNoNullBeside(tables.listItems, ListItemEntry, Oldest);
      tables := tables.(listItems := Deduplicated(tables.listItems, ListItemEntry, Oldest));
      ok := Unique(tables.listItems, ListItemEntry);

      if ok {
        UniqueAfterwardsIffNoNullBeside(tables.viewings, ViewingEntry, Newest);
        tables := tables.(viewings := Deduplicated(tables.viewings, ViewingEntry, Newest));
        ok := Unique(tables.viewings, ViewingEntry);
      }

      if ok {
        UniqueAfterwardsIffNoNullBeside(tables.lists, FavoritesEntry, Oldest);
        var kept := Deduplicated(tables.lists, FavoritesEntry, Oldest);
        tables := tables.(lists := kept, listItems := Cascaded(tables.listItems, tables.lists - kept));
        ok := Unique(tables.lists, FavoritesEntry);
      }

      if ok {
        UniqueAfterwardsIffNoNullBeside(tables.externalIds, ExternalIdEntry, Oldest);
        tables := tables.(externalIds := Deduplicated(tables.externalIds, ExternalIdEntry, Oldest));
        ok := Unique(tables.externalIds, ExternalIdEntry);
      }

      if ok {
        UniqueAfterwardsIffNoNullBeside(tables.downloads, DownloadEntry, Newest);
        tables := tables.(downloads := Deduplicated(tables.downloads, DownloadEntry, Newest));
        ok := Unique(tables.downloads, DownloadEntry);
      }

      if !ok {
        tables := before;
      }
    }
  }

  // ----- the tables together ------------------------------------------------------------

  // What each statement deletes, in the columns it names.

  lemma DuplicateListItems(rows: set<ListItem>, a: ListItem)
    requires a in rows
    ensures a !in Deduplicated(rows, ListItemEntry, Oldest)
       <==> exists b :: b in rows && b.listGuid == a.listGuid && b.itemGuid == a.itemGuid && b.itemType == a.itemType
                        && a.createdAt.Some? && b.createdAt.Some?
                        && (|| a.createdAt.value > b.createdAt.value
                            || (a.createdAt.value == b.createdAt.value && a.ctid > b.ctid))
  {
    forall b | b in rows && Beaten(ListItemEntry(a), ListItemEntry(b), Oldest)
      ensures b.listGuid == a.listGuid && b.itemGuid == a.itemGuid && b.itemType == a.itemType
    {
      SameListAndItem(a, b);
    }
    if b :| b in rows && b.listGuid == a.listGuid && b.itemGuid == a.itemGuid && b.itemType == a.itemType
            && a.createdAt.Some? && b.createdAt.Some?
            && (|| a.createdAt.value > b.createdAt.value
                || (a.createdAt.value == b.createdAt.value && a.ctid > b.ctid)) {
      assert Beaten(ListItemEntry(a), ListItemEntry(b), Oldest);
    }
  }

  /** A list item goes with its duplicates, or with its list. */
  lemma DeletedListItems(t: Tables, a: ListItem)
    requires a in t.listItems
    ensures a !in Migrated(t).listItems
       <==> || (exists b :: b in t.listItems
                            && b.listGuid == a.listGuid && b.itemGuid == a.itemGuid && b.itemType == a.itemType
                            && a.createdAt.Some? && b.createdAt.Some?
                            && (|| a.createdAt.value > b.createdAt.value
                                || (a.createdAt.value == b.createdAt.value && a.ctid > b.ctid)))
            || exists l :: l in t.lists && l !in Migrated(t).lists && l.guid == a.listGuid
  {
    DuplicateListItems(t.listItems, a);
  }

  lemma TwoColumns(a: string, b: string, c: string, d: string)
    ensures [a, b] == [c, d] <==> a == c && b == d
  {
    assert [a, b][0] == a && [a, b][1] == b && [c, d][0] == c && [c, d][1] == d;
  }

  lemma DeletedViewings(t: Tables, a: Viewing)
    requires a in t.viewings
    ensures a !in Migrated(t).viewings
       <==> exists b :: b in t.viewings && b.userGuid == a.userGuid && b.mediaItemGuid == a.mediaItemGuid
                        && (|| a.lastWatchedAt < b.lastWatchedAt
                            || (a.lastWatchedAt == b.lastWatchedAt && a.ctid > b.ctid))
  {
    forall b | b in t.viewings {
      TwoColumns(a.userGuid, a.mediaItemGuid, b.userGuid, b.mediaItemGuid);
    }
    if b :| b in t.viewings && b.userGuid == a.userGuid && b.mediaItemGuid == a.mediaItemGuid
            && (a.lastWatchedAt < b.lastWatchedAt || (a.lastWatchedAt == b.lastWatchedAt && a.ctid > b.ctid)) {
      assert Beaten(ViewingEntry(a), ViewingEntry(b), Newest);
    }
  }

  lemma DeletedLists(t: Tables, a: List)
    requires a in t.lists
    ensures a !in Migrated(t).lists
       <==> exists b :: b in t.lists && a.listType == "FAVORITES" && b.listType == "FAVORITES"
                        && a.ownerGuid.Some? && b.ownerGuid == a.ownerGuid
                        && a.createdAt.Some? && b.createdAt.Some?
                        && (|| a.createdAt.value > b.createdAt.value
                            || (a.createdAt.value == b.createdAt.value && a.ctid > b.ctid))
  {
    forall b | b in t.lists && Beaten(FavoritesEntry(a), FavoritesEntry(b), Oldest)
      ensures IsFavorites(a) && IsFavorites(b) && a.ownerGuid.Some? && b.ownerGuid == a.ownerGuid
    {
      assert [a.ownerGuid.value][0] == [b.ownerGuid.value][0];
    }
    if b :| b in t.lists && a.listType == "FAVORITES" && b.listType == "FAVORITES"
            && a.ownerGuid.Some? && b.ownerGuid == a.ownerGuid && a.createdAt.Some? && b.createdAt.Some?
            && (|| a.createdAt.value > b.createdAt.value
                || (a.createdAt.value == b.createdAt.value && a.ctid > b.ctid)) {
      assert Beaten(FavoritesEntry(a), FavoritesEntry(b), Oldest);
    }
  }

  lemma DeletedExternalIds(t: Tables, a: ExternalId)
    requires a in t.externalIds
    ensures a !in Migrated(t).externalIds
       <==> exists b :: b in t.externalIds && b.provider == a.provider && b.externalId == a.externalId
                        && (|| a.createdAt > b.createdAt || (a.createdAt == b.createdAt && a.ctid > b.ctid))
  {
    forall b | b in t.externalIds {
      TwoColumns(a.provider, a.externalId, b.provider, b.externalId);
    }
    if b :| b in t.externalIds && b.provider == a.provider && b.externalId == a.externalId
            && (a.createdAt > b.createdAt || (a.createdAt == b.createdAt && a.ctid > b.ctid)) {
      assert Beaten(ExternalIdEntry(a), ExternalIdEntry(b), Oldest);
    }
  }

  predicate OverStatus(status: string) { status in {"Failed", "Imported", "Completed"} }

  lemma DeletedDownloads(t: Tables, a: Download)
    requires a in t.downloads
    ensures a !in Migrated(t).downloads
       <==> exists b :: b in t.downloads && a.releaseLinkGuid.Some? && b.releaseLinkGuid == a.releaseLinkGuid
                        && !OverStatus(a.status) && !OverStatus(b.status)
                        && a.createdAt.Some? && b.createdAt.Some?
                        && (|| a.createdAt.value < b.createdAt.value
                            || (a.createdAt.value == b.createdAt.value && a.ctid > b.ctid))
  {
    forall b | b in t.downloads && Beaten(DownloadEntry(a), DownloadEntry(b), Newest)
      ensures IsActive(a) && IsActive(b) && a.releaseLinkGuid.Some? && b.releaseLinkGuid == a.releaseLinkGuid
    {
      assert [a.releaseLinkGuid.value][0] == [b.releaseLinkGuid.value][0];
    }
    if b :| b in t.downloads && a.releaseLinkGuid.Some? && b.releaseLinkGuid == a.releaseLinkGuid
            && !OverStatus(a.status) && !OverStatus(b.status) && a.createdAt.Some? && b.createdAt.Some?
            && (|| a.createdAt.value < b.createdAt.value
                || (a.createdAt.value == b.createdAt.value && a.ctid > b.ctid)) {
      assert Beaten(DownloadEntry(a), DownloadEntry(b), Newest);
    }
  }

  /** After the migration all five constraints hold, the cascade included. */
  lemma MigratedMeetsTheConstraints(t: Tables)
    requires Stored(t) && CanMigrate(t)
    ensures Unique(Migrated(t).listItems, ListItemEntry) && Unique(Migrated(t).viewings, ViewingEntry)
    ensures Unique(Migrated(t).lists, FavoritesEntry) && Unique(Migrated(t).externalIds, ExternalIdEntry)
    ensures Unique(Migrated(t).downloads, DownloadEntry)
  {
    UniqueAfterwardsIffNoNullBeside(t.listItems, ListItemEntry, Oldest);
    UniqueAfterwardsIffNoNullBeside(t.viewings, ViewingEntry, Newest);
    UniqueAfterwardsIffNoNullBeside(t.lists, FavoritesEntry, Oldest);
    UniqueAfterwardsIffNoNullBeside(t.externalIds, ExternalIdEntry, Oldest);
    UniqueAfterwardsIffNoNullBeside(t.downloads, DownloadEntry, Newest);
  }

  /** The items one user has on any of their favorites lists. */
  ghost predicate Favorited(lists: set<List>, items: set<ListItem>, owner: Guid, item: Guid) {
    exists l, i :: l in lists && i in items && IsFavorites(l) && l.ownerGuid == Some(owner)
                   && i.listGuid == l.guid && i.itemGuid == item
  }

  /**
   * What a user still has favorited is exactly what was on a favorites list that survives: the
   * items on a losing list go with it.
   */
  lemma FavoritesOfSurvivingListsRemain(t: Tables, owner: Guid, item: Guid)
    requires Stored(t)
    ensures Favorited(Migrated(t).lists, Migrated(t).listItems, owner, item)
       <==> Favorited(KeptLists(t), t.listItems, owner, item)
  {
    if Favorited(KeptLists(t), t.listItems, owner, item) {
      var l, i :| l in KeptLists(t) && i in t.listItems && IsFavorites(l) && l.ownerGuid == Some(owner)
                  && i.listGuid == l.guid && i.itemGuid == item;
      var best := LosersHaveAWinner(t.listItems, ListItemEntry, Oldest, i);
      SameListAndItem(i, best);
      assert best in KeptItems(t);
    }
  }

  lemma SameListAndItem(a: ListItem, b: ListItem)
    requires ListItemEntry(a).key == ListItemEntry(b).key
    ensures a.listGuid == b.listGuid && a.itemGuid == b.itemGuid && a.itemType == b.itemType
  {
    var ka, kb := [a.listGuid, a.itemGuid, a.itemType], [b.listGuid, b.itemGuid, b.itemType];
    assert ka[0] == kb[0] && ka[1] == kb[1] && ka[2] == kb[2];
  }

  /** An item that is on the newer of two favorites lists only. */
  function NewerListOnly(owner: Guid, older: Guid, newer: Guid, item: Guid): Tables {
    Tables(
      {ListItem(1, newer, item, "MOVIE", Some(2))}, {},
      {List(1, older, "FAVORITES", Some(owner), Some(1)), List(2, newer, "FAVORITES", Some(owner), Some(2))}, {}, {})
  }

  /** So removing a duplicate favorites list can lose a favorite, though every DELETE kept its keys. */
  lemma AFavoriteCanBeLost(owner: Guid, older: Guid, newer: Guid, item: Guid)
    requires older != newer
    ensures var t := NewerListOnly(owner, older, newer, item);
            && Stored(t) && CanMigrate(t)
            && Favorited(t.lists, t.listItems, owner, item)
            && !Favorited(Migrated(t).lists, Migrated(t).listItems, owner, item)
  {
    var t := NewerListOnly(owner, older, newer, item);
    var first := List(1, older, "FAVORITES", Some(owner), Some(1));
    var second := List(2, newer, "FAVORITES", Some(owner), Some(2));
    var only := ListItem(1, newer, item, "MOVIE", Some(2));
    assert t.lists == {first, second} && t.listItems == {only};
    assert Beaten(FavoritesEntry(second), FavoritesEntry(first), Oldest);
    assert Favorited(t.lists, t.listItems, owner, item);
    FavoritesOfSurvivingListsRemain(t, owner, item);
    assert second !in KeptLists(t);
  }

  /** References stay sound: an item that is left is on a list that is left. */
  lemma CascadeKeepsReferences(t: Tables, i: ListItem)
    requires Stored(t)
    requires forall j :: j in t.listItems ==> exists l :: l in t.lists && l.guid == j.listGuid
    requires i in Migrated(t).listItems
    ensures exists l :: l in Migrated(t).lists && l.guid == i.listGuid
  {
    var l :| l in t.lists && l.guid == i.listGuid;
    assert l !in t.lists - KeptLists(t);
  }

  /** Among active downloads of one release link, the one left is the newest. */
  lemma NewestActiveDownloadIsLeft(t: Tables, a: Download, b: Download)
    requires Stored(t)
    requires a in Migrated(t).downloads && b in t.downloads && IsActive(a) && IsActive(b)
    requires a.releaseLinkGuid.Some? && a.releaseLinkGuid == b.releaseLinkGuid
    requires a.createdAt.Some? && b.createdAt.Some?
    ensures a.createdAt.value > b.createdAt.value
            || (a.createdAt.value == b.createdAt.value && a.ctid <= b.ctid)
  {
    if a != b {
      SurvivorBeatsTheRest(t.downloads, DownloadEntry, Newest, a, b);
    }
  }
}

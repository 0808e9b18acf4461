/**
 * The one-time backfill that marks every favorited item and its whole subtree as monitored.
 *
 * Tables are maps and sequences of rows. Nothing is said about the parent column: it may form
 * cycles and may name rows that do not exist.
 */
module Favorites {
  import opened Wrappers

  type Guid = string

  datatype ListType = FAVORITES | OTHER_LIST
  datatype ListItem = ListItem(list: Guid, item: Guid)
  datatype MediaItem = MediaItem(
    parent: Option<Guid>, monitored: bool, source: Option<string>, reconciledAt: Option<int>)

  type Items = map<Guid, MediaItem>

  // ----- what should be marked ----------------------------------------------------

  /** The `n`-th ancestor of a row, as long as the chain stays inside the table. */
  function Ancestor(items: Items, g: Guid, n: nat): Option<Guid>
    decreases n
  {
    if g !in items then None
    else if n == 0 then Some(g)
    else if items[g].parent.None? then None
    else Ancestor(items, items[g].parent.value, n - 1)
  }

  predicate OnFavorites(lists: map<Guid, ListType>, li: ListItem) {
    li.list in lists && lists[li.list] == FAVORITES
  }

  /** Every guid that some favorites list names. */
  function RootSet(lists: map<Guid, ListType>, listItems: seq<ListItem>): set<Guid> {
    set i | 0 <= i < |listItems| && OnFavorites(lists, listItems[i]) :: listItems[i].item
  }

  ghost predicate UnderRoot(items: Items, roots: set<Guid>, g: Guid) {
    exists n: nat :: Ancestor(items, g, n).Some? && Ancestor(items, g, n).value in roots
  }

  // ----- the recursion -------------------------------------------------------------

  function ChildrenOf(items: Items, parents: set<Guid>): set<Guid> {
    set g | g in items && items[g].parent.Some? && items[g].parent.value in parents
  }

  predicate ClosedUnderChildren(items: Items, s: set<Guid>) { ChildrenOf(items, s) <= s }

  lemma ChildIsUnderRoot(items: Items, roots: set<Guid>, g: Guid)
    requires g in items && items[g].parent.Some? && UnderRoot(items, roots, items[g].parent.value)
    ensures UnderRoot(items, roots, g)
  {
    var p := items[g].parent.value;
    var n: nat :| Ancestor(items, p, n).Some? && Ancestor(items, p, n).value in roots;
    assert Ancestor(items, g, n + 1) == Ancestor(items, p, n);
  }

  lemma RootIsUnderRoot(items: Items, roots: set<Guid>, g: Guid)
    requires g in items && g in roots
    ensures UnderRoot(items, roots, g)
  {
    assert Ancestor(items, g, 0) == Some(g);
  }

  lemma {:induction false} ClosureReachesDescendants(items: Items, roots: set<Guid>, s: set<Guid>, g: Guid, n: nat)
    requires items.Keys * roots <= s && ClosedUnderChildren(items, s)
    requires Ancestor(items, g, n).Some? && Ancestor(items, g, n).value in roots
    ensures g in s
    decreases n
  {
    if n == 0 {
      assert g in items.Keys * roots;
    } else {
      ClosureReachesDescendants(items, roots, s, items[g].parent.value, n - 1);
      assert g in ChildrenOf(items, s);
    }
  }

  /**
   * A set of rows found by starting from the roots and adding children is complete as soon as
   * adding children changes nothing: it is then exactly the rows with a root at or above them.
   */
  lemma FixpointIsTheSubtree(items: Items, roots: set<Guid>, s: set<Guid>, g: Guid)
    requires items.Keys * roots <= s && ClosedUnderChildren(items, s)
    requires forall d :: d in s ==> UnderRoot(items, roots, d)
    ensures g in s <==> UnderRoot(items, roots, g)
  {
    if UnderRoot(items, roots, g) {
      var n: nat :| Ancestor(items, g, n).Some? && Ancestor(items, g, n).value in roots;
      ClosureReachesDescendants(items, roots, s, g, n);
    }
  }

  /** Marking is inherited all the way down, and so all the way around a cycle. */
  lemma {:induction false} MarkingIsInherited(items: Items, roots: set<Guid>, g: Guid, n: nat)
    requires Ancestor(items, g, n).Some? && UnderRoot(items, roots, Ancestor(items, g, n).value)
    ensures UnderRoot(items, roots, g)
    decreases n
  {
    if n > 0 {
      MarkingIsInherited(items, roots, items[g].parent.value, n - 1);
      ChildIsUnderRoot(items, roots, g);
    }
  }

  // ----- the migration --------------------------------------------------------------

  function Unmarked(m: MediaItem): MediaItem { MediaItem(m.parent, false, None, None) }

  function Marked(m: MediaItem, now: int): MediaItem {
    m.(monitored := true, source := Some("favorite"), reconciledAt := Some(now))
  }

  class Database {
    var items: Items
    var lists: map<Guid, ListType>
    var listItems: seq<ListItem>

    constructor (items: Items, lists: map<Guid, ListType>, listItems: seq<ListItem>)
      ensures this.items == items && this.lists == lists && this.listItems == listItems
    {
      this.items, this.lists, this.listItems := items, lists, listItems;
    }

    /** The join of list items with the favorites lists. */
    method FavoriteRoots() returns (roots: set<Guid>)
      ensures roots == RootSet(lists, listItems)
      ensures forall g :: g in roots <==>
                exists i :: 0 <= i < |listItems| && listItems[i].item == g
                            && listItems[i].list in lists && lists[listItems[i].list] == FAVORITES
    {
      roots := {};
      for i := 0 to |listItems|
        invariant roots == RootSet(lists, listItems[..i])
      {
        RootsGrow(lists, listItems, i);
        if OnFavorites(lists, listItems[i]) {
          roots := roots + {listItems[i].item};
        }
      }
      assert listItems[..|listItems|] == listItems;
    }

    /** UNION iteration: only rows not seen before go on to the next round. */
    method Subtree(roots: set<Guid>) returns (result: set<Guid>)
      ensures forall g :: g in result <==> UnderRoot(items, roots, g)
    {
      result := items.Keys * roots;
      var working := result;
      forall g | g in result ensures UnderRoot(items, roots, g) {
        RootIsUnderRoot(items, roots, g);
      }
      while working != {}
        invariant items.Keys * roots <= result <= items.Keys && working <= result
        invariant forall g :: g in result ==> UnderRoot(items, roots, g)
        invariant ChildrenOf(items, result - working) <= result
        decreases items.Keys - result, |working|
      {
        ghost var before := result;
        var found := ChildrenOf(items, working) - result;
        forall g | g in found ensures UnderRoot(items, roots, g) {
          ChildIsUnderRoot(items, roots, g);
        }
        result := result + found;
        forall g | g in ChildrenOf(items, result - found) ensures g in result {
          var p := items[g].parent.value;
          if p in working {
            assert g in ChildrenOf(items, working);
          } else {
            assert g in ChildrenOf(items, before - working);
          }
        }
        if found != {} {
          var g :| g in found;
          assert g in items.Keys - before && g !in items.Keys - result;
        }
        working := found;
      }
      assert result - {} == result;
      forall g ensures g in result <==> UnderRoot(items, roots, g) {
        FixpointIsTheSubtree(items, roots, result, g);
      }
    }

    /** Adds the three columns with their defaults, then backfills them. */
    method Upgrade(now: int)
      modifies this`items
      ensures items.Keys == old(items.Keys)
      ensures forall g :: g in items ==>
                items[g] == if UnderRoot(old(items), RootSet(lists, listItems), g)
                            then Marked(Unmarked(old(items[g])), now) else Unmarked(old(items[g]))
      ensures forall g :: g in items ==>
                && items[g].parent == old(items[g].parent)
                && (items[g].monitored <==> UnderRoot(old(items), RootSet(lists, listItems), g))
                && items[g].source == (if items[g].monitored then Some("favorite") else None)
                && items[g].reconciledAt == (if items[g].monitored then Some(now) else None)
    {
      items := map g | g in items :: Unmarked(items[g]);
      ghost var added := items;
      var roots := FavoriteRoots();
      var subtree := Subtree(roots);
      items := map g | g in items :: if g in subtree then Marked(items[g], now) else items[g];
      forall g ensures UnderRoot(old(items), roots, g) <==> UnderRoot(added, roots, g) {
        MarksDoNotMatter(old(items), added, roots, g);
      }
    }
  }

  lemma RootsGrow(lists: map<Guid, ListType>, listItems: seq<ListItem>, i: nat)
    requires i < |listItems|
    ensures RootSet(lists, listItems[..i + 1])
         == RootSet(lists, listItems[..i]) + if OnFavorites(lists, listItems[i]) then {listItems[i].item} else {}
  {
    forall g | g in RootSet(lists, listItems[..i]) ensures g in RootSet(lists, listItems[..i + 1]) {
      var k :| 0 <= k < i && OnFavorites(lists, listItems[..i][k]) && listItems[..i][k].item == g;
      assert listItems[..i + 1][k] == listItems[..i][k];
    }
    assert listItems[..i + 1][i] == listItems[i];
    forall g | g in RootSet(lists, listItems[..i + 1])
      ensures g in RootSet(lists, listItems[..i]) || (OnFavorites(lists, listItems[i]) && g == listItems[i].item)
    {
      var k :| 0 <= k < i + 1 && OnFavorites(lists, listItems[..i + 1][k]) && listItems[..i + 1][k].item == g;
      assert k < i ==> listItems[..i][k] == listItems[..i + 1][k];
    }
  }

  predicate SameParents(a: Items, b: Items) {
    a.Keys == b.Keys && forall g :: g in a ==> a[g].parent == b[g].parent
  }

  lemma {:induction false} SameAncestors(a: Items, b: Items, g: Guid, n: nat)
    requires SameParents(a, b)
    ensures Ancestor(a, g, n) == Ancestor(b, g, n)
    decreases n
  {
    if n > 0 && g in a && a[g].parent.Some? {
      SameAncestors(a, b, a[g].parent.value, n - 1);
    }
  }

  /** Only the parent column decides what is below a root. */
  lemma MarksDoNotMatter(a: Items, b: Items, roots: set<Guid>, g: Guid)
    requires SameParents(a, b)
    ensures UnderRoot(a, roots, g) <==> UnderRoot(b, roots, g)
  {
    if n: nat :| Ancestor(a, g, n).Some? && Ancestor(a, g, n).value in roots {
      SameAncestors(a, b, g, n);
    }
    if n: nat :| Ancestor(b, g, n).Some? && Ancestor(b, g, n).value in roots {
      SameAncestors(a, b, g, n);
    }
  }
}

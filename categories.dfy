/**
 * The categories view's `organizedCategories`: the top-level categories,
 * keyed by id, each carrying the list of its direct children. Ids are
 * integer-like keys, whose enumeration order JavaScript fixes as ascending,
 * so the result is a map.
 */
module Categories {
  import opened Common
  import opened Records

  /** A top-level entry: the category's own fields plus `children`. */
  datatype Entry = Entry(category: Category, children: seq<Category>)

  /** `!category.parentId`: an absent parent id, or the falsy id 0. */
  predicate IsRoot(c: Category)
  {
    c.parentId.None? || c.parentId.value == 0
  }

  /** `categories.filter(c => c.parentId === id)`. */
  function ChildrenOf(cats: seq<Category>, id: int): seq<Category>
  {
    if cats == [] then []
    else (if cats[0].parentId == Some(id) then [cats[0]] else []) + ChildrenOf(cats[1..], id)
  }

  /** The children of `id` are exactly the categories whose parent id is `id`. */
  lemma {:induction false} ChildrenOfMembers(cats: seq<Category>, id: int)
    ensures forall c :: c in ChildrenOf(cats, id) <==> c in cats && c.parentId == Some(id)
  {
    if cats != [] {
      ChildrenOfMembers(cats[1..], id);
      assert forall c :: c in cats <==> c == cats[0] || c in cats[1..];
    }
  }

  /** The filter keeps input order: filtering a concatenation concatenates the filtered parts. */
  lemma {:induction false} ChildrenOfConcat(a: seq<Category>, b: seq<Category>, id: int)
    ensures ChildrenOf(a + b, id) == ChildrenOf(a, id) + ChildrenOf(b, id)
  {
    if a == [] {
      assert a + b == b;
    } else {
      ChildrenOfConcat(a[1..], b, id);
      var h := if a[0].parentId == Some(id) then [a[0]] else [];
      assert (a + b)[0] == a[0] && (a + b)[1..] == a[1..] + b;
      calc {
        ChildrenOf(a + b, id);
        h + ChildrenOf(a[1..] + b, id);
        h + (ChildrenOf(a[1..], id) + ChildrenOf(b, id));
        (h + ChildrenOf(a[1..], id)) + ChildrenOf(b, id);
        ChildrenOf(a, id) + ChildrenOf(b, id);
      }
    }
  }

  /** The reduce over the first categories `done`, the children drawn from the whole list `all`. */
  function Organized(all: seq<Category>, done: seq<Category>): map<int, Entry>
  {
    if done == [] then map[]
    else
      var m := Organized(all, done[..|done| - 1]);
      var c := done[|done| - 1];
      if IsRoot(c) then m[c.id := Entry(c, ChildrenOf(all, c.id))] else m
  }

  function Organize(cats: seq<Category>): map<int, Entry>
  {
    Organized(cats, cats)
  }

  /** The index of the last root category with id `k` in `done`, or -1 when there is none:
      the reduce overwrites an id's entry, so the last root with that id wins. */
  function LastRootIndex(done: seq<Category>, k: int): (i: int)
    ensures -1 <= i < |done|
    ensures i >= 0 ==> IsRoot(done[i]) && done[i].id == k
    ensures forall j :: i < j < |done| ==> !(IsRoot(done[j]) && done[j].id == k)
  {
    if done == [] then -1
    else if IsRoot(done[|done| - 1]) && done[|done| - 1].id == k then |done| - 1
    else LastRootIndex(done[..|done| - 1], k)
  }

  /** The organised map has an entry for exactly the ids of the root categories; the entry
      for `k` is the last root with id `k`, and its children are exactly the categories
      whose parent id is `k`, in input order. */
  lemma {:induction false} OrganizedMeaning(all: seq<Category>, done: seq<Category>)
    ensures forall k :: k in Organized(all, done) <==> LastRootIndex(done, k) >= 0
    ensures forall k :: k in Organized(all, done) ==>
      Organized(all, done)[k] == Entry(done[LastRootIndex(done, k)], ChildrenOf(all, k))
  {
    if done != [] {
      var p := done[..|done| - 1];
      OrganizedMeaning(all, p);
    }
  }

  /** Every entry is a root category of the input under its own id, carrying its children
      (possibly none); every root category of the input has an entry under its id. */
  lemma OrganizeEntries(cats: seq<Category>)
    ensures forall k :: k in Organize(cats) ==>
      var e := Organize(cats)[k];
      e.category in cats && IsRoot(e.category) && e.category.id == k && e.children == ChildrenOf(cats, k)
    ensures forall c :: c in cats && IsRoot(c) ==> c.id in Organize(cats)
  {
    OrganizedMeaning(cats, cats);
    forall c | c in cats && IsRoot(c)
      ensures c.id in Organize(cats)
    {
      var j :| 0 <= j < |cats| && cats[j] == c;
    }
  }

  /** When two roots share an id, the later one's entry is kept. */
  lemma LaterRootWins(cats: seq<Category>, i: int, j: int)
    requires 0 <= i < j < |cats|
    requires IsRoot(cats[i]) && IsRoot(cats[j]) && cats[i].id == cats[j].id
    requires forall l :: j < l < |cats| ==> !(IsRoot(cats[l]) && cats[l].id == cats[j].id)
    ensures cats[j].id in Organize(cats) && Organize(cats)[cats[j].id].category == cats[j]
  {
    OrganizedMeaning(cats, cats);
  }

  /** No category is listed under two entries. */
  lemma ChildOfOneEntry(cats: seq<Category>, c: Category, k1: int, k2: int)
    requires k1 in Organize(cats) && k2 in Organize(cats)
    requires c in Organize(cats)[k1].children && c in Organize(cats)[k2].children
    ensures k1 == k2
  {
    OrganizeEntries(cats);
    ChildrenOfMembers(cats, k1);
    ChildrenOfMembers(cats, k2);
  }

  /** A category whose parent id is truthy but names no root (a grandchild, say) is neither
      an entry nor anyone's child. */
  lemma OrphanAppearsNowhere(cats: seq<Category>, c: Category)
    requires !IsRoot(c)
    requires forall r :: r in cats && IsRoot(r) ==> Some(r.id) != c.parentId
    ensures forall k :: k in Organize(cats) ==>
      Organize(cats)[k].category != c && c !in Organize(cats)[k].children
  {
    OrganizeEntries(cats);
    forall k | k in Organize(cats)
      ensures c !in Organize(cats)[k].children
    {
      assert Organize(cats)[k].category in cats;
      ChildrenOfMembers(cats, k);
    }
  }

  /** The reduce as a loop that inserts each root's entry into the accumulator in place. */
  method OrganizeCategories(cats: seq<Category>) returns (organized: map<int, Entry>)
    ensures organized == Organize(cats)
    ensures forall k :: k in organized ==> IsRoot(organized[k].category) && organized[k].children == ChildrenOf(cats, k)
  {
    organized := map[];
    for i := 0 to |cats|
      invariant organized == Organized(cats, cats[..i])
    {
      assert cats[..i + 1][..i] == cats[..i];
      var category := cats[i];
      if IsRoot(category) {
        organized := organized[category.id := Entry(category, ChildrenOf(cats, category.id))];
      }
    }
    assert cats[..|cats|] == cats;
    OrganizeEntries(cats);
  }
}

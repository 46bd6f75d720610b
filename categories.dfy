/** Category resolve-or-create, shared by product creation and product update:
    look a category up by name and create it when no row matches. */
module Categories {
  import opened Common
  import opened Text
  import opened Tables

  /** How `findFirst` compares names: `mode: "insensitive"`, or plain equality. */
  datatype Mode = Insensitive | Exact

  predicate Matches(c: Category, name: string, mode: Mode) {
    match mode
    case Insensitive => SameIgnoringCase(c.name, name)
    case Exact => c.name == name
  }

  function Find(cats: seq<Category>, name: string, mode: Mode): Option<nat> {
    FindFirst(cats, (c: Category) => Matches(c, name, mode))
  }

  /** The category id a resolve-or-create settles on and the table afterwards. */
  datatype Resolution = Resolution(id: int, table: seq<Category>)

  function Resolve(cats: seq<Category>, next: int, name: string, mode: Mode): (r: Resolution)
    ensures Find(cats, name, mode).Some? ==> r.table == cats && r.id == cats[Find(cats, name, mode).value].id
    ensures Find(cats, name, mode).None? ==> r.table == cats + [Category(next, name)] && r.id == next
  {
    match Find(cats, name, mode)
    case Some(j) => Resolution(cats[j].id, cats)
    case None => Resolution(next, cats + [Category(next, name)])
  }

  /** Resolving a name a second time finds the row the first resolution
      settled on and creates nothing: each name is created at most once. */
  lemma ResolveTwice(cats: seq<Category>, next: int, name: string, mode: Mode, next': int)
    ensures var r := Resolve(cats, next, name, mode);
            Resolve(r.table, next', name, mode) == r
  {
    var p := (c: Category) => Matches(c, name, mode);
    var r := Resolve(cats, next, name, mode);
    if Find(cats, name, mode).None? {
      var c := Category(next, name);
      assert Matches(c, name, mode);
      FindFirstAgrees(cats, p, r.table[..|cats|], p);
      assert r.table[..|cats|] == cats;
      assert forall j :: 0 <= j < |cats| ==> !p(r.table[j]);
      assert p(r.table[|cats|]);
      assert Find(r.table, name, mode) == Some(|cats|);
    }
  }

  /** `findFirst` by name, then `create` when nothing matched. */
  method FindOrCreate(db: Db, name: string, mode: Mode) returns (id: int)
    requires db.Valid()
    modifies db`categories, db`nextCategoryId
    ensures db.Valid()
    ensures Resolution(id, db.categories) == Resolve(old(db.categories), old(db.nextCategoryId), name, mode)
    ensures db.nextCategoryId == if db.categories == old(db.categories) then old(db.nextCategoryId) else old(db.nextCategoryId) + 1
  {
    var found := Find(db.categories, name, mode);
    if found.Some? {
      id := db.categories[found.value].id;
    } else {
      id := db.nextCategoryId;
      db.categories := db.categories + [Category(id, name)];
      db.nextCategoryId := db.nextCategoryId + 1;
    }
  }
}

/** The redirect table that slug changes leave behind. */
module Redirects {
  import opened Outcomes

  datatype Row = Row(to: string, sourceType: string, sourceId: nat)

  /** from_path is unique within a tenant. */
  type Table = map<string, Row>

  datatype Change = Change(sourceType: string, sourceId: nat, oldSlug: Option<string>, newSlug: Option<string>)

  const PATH_PREFIXES: map<string, string> := map[
    "product" := "/product/", "category" := "/category/", "brand" := "/brand/",
    "collection" := "/collection/", "static_page" := "/page/", "blog_post" := "/blog/"]

  /** PHP's falsy strings: null, the empty string and "0". */
  predicate Falsy(slug: Option<string>) {
    slug.None? || slug.value == "" || slug.value == "0"
  }

  predicate Effective(c: Change) {
    !Falsy(c.oldSlug) && !Falsy(c.newSlug) && c.oldSlug != c.newSlug && c.sourceType in PATH_PREFIXES
  }

  function FromPath(c: Change): string
    requires Effective(c)
  {
    PATH_PREFIXES[c.sourceType] + c.oldSlug.value
  }

  function ToPath(c: Change): (p: string)
    requires Effective(c)
    ensures p != FromPath(c)
  {
    var prefix := PATH_PREFIXES[c.sourceType];
    assert (prefix + c.oldSlug.value)[|prefix|..] == c.oldSlug.value;
    assert (prefix + c.newSlug.value)[|prefix|..] == c.newSlug.value;
    prefix + c.newSlug.value
  }

  function WithoutTarget(t: Table, path: string): Table {
    map f | f in t && t[f].to != path :: t[f]
  }

  function Recorded(t: Table, c: Change): Table {
    if !Effective(c) then t
    else WithoutTarget(t, FromPath(c))[FromPath(c) := Row(ToPath(c), c.sourceType, c.sourceId)]
  }

  class RedirectService {
    var rows: Table

    constructor ()
      ensures rows == map[]
    {
      rows := map[];
    }

    method RecordSlugChange(sourceType: string, sourceId: nat, oldSlug: Option<string>, newSlug: Option<string>)
      modifies this
      ensures rows == Recorded(old(rows), Change(sourceType, sourceId, oldSlug, newSlug))
    {
      if Falsy(oldSlug) || Falsy(newSlug) || oldSlug == newSlug || sourceType !in PATH_PREFIXES {
        return;
      }
      var fromPath := PATH_PREFIXES[sourceType] + oldSlug.value;
      var toPath := PATH_PREFIXES[sourceType] + newSlug.value;
      rows := WithoutTarget(rows, fromPath);
      rows := rows[fromPath := Row(toPath, sourceType, sourceId)];
    }

    /** What the theorems about runs say of this object; `served` are the changes it has recorded before. */
    method Serve(cs: seq<Change>, ghost served: seq<Change>)
      requires rows == After(served)
      modifies this
      ensures rows == After(served + cs)
    {
      var i := 0;
      assert served + cs[..0] == served;
      while i < |cs|
        invariant 0 <= i <= |cs| && rows == After(served + cs[..i])
      {
        RecordSlugChange(cs[i].sourceType, cs[i].sourceId, cs[i].oldSlug, cs[i].newSlug);
        assert (served + cs[..i + 1])[..|served| + i] == served + cs[..i];
        i := i + 1;
      }
      assert cs[..|cs|] == cs;
    }
  }

  // Runs

  function After(cs: seq<Change>): Table {
    if cs == [] then map[] else Recorded(After(cs[..|cs| - 1]), cs[|cs| - 1])
  }

  /** The position of the last change away from a path, -1 when it never changed. */
  function LastFrom(cs: seq<Change>, path: string): (i: int)
    ensures -1 <= i < |cs| && (i >= 0 ==> Effective(cs[i]) && FromPath(cs[i]) == path)
  {
    if cs == [] then -1
    else
      var last := |cs| - 1;
      if Effective(cs[last]) && FromPath(cs[last]) == path then last else LastFrom(cs[..last], path)
  }

  /** The last change away from `path` led to `to`, and nothing was renamed away from `to` since. */
  predicate Survives(cs: seq<Change>, path: string, to: string) {
    var i := LastFrom(cs, path);
    i >= 0 && ToPath(cs[i]) == to && LastFrom(cs, to) < i
  }

  /** After any slug changes of any entities, exactly the surviving renames are redirected. */
  lemma {:induction false} RowsAreSurvivors(cs: seq<Change>, path: string, to: string)
    ensures path in After(cs) && After(cs)[path].to == to <==> Survives(cs, path, to)
  {
    if cs != [] {
      RowsAreSurvivors(cs[..|cs| - 1], path, to);
    }
  }

  function Follow(t: Table, path: string, hops: nat): string
    decreases hops
  {
    if hops == 0 || path !in t then path else Follow(t, t[path].to, hops - 1)
  }

  /** Every hop leads to a path that changed less recently. */
  lemma HopDescends(cs: seq<Change>, path: string)
    requires path in After(cs)
    ensures LastFrom(cs, After(cs)[path].to) < LastFrom(cs, path)
  {
    RowsAreSurvivors(cs, path, After(cs)[path].to);
  }

  lemma {:induction false} FollowDescends(cs: seq<Change>, path: string, hops: nat)
    ensures var end := Follow(After(cs), path, hops);
            LastFrom(cs, end) <= LastFrom(cs, path)
            && (hops > 0 && path in After(cs) ==> LastFrom(cs, end) < LastFrom(cs, path))
    decreases hops
  {
    if hops > 0 && path in After(cs) {
      HopDescends(cs, path);
      FollowDescends(cs, After(cs)[path].to, hops - 1);
    }
  }

  /** No redirect leads back to where it started, in any number of hops. */
  lemma NoCycles(cs: seq<Change>, path: string, hops: nat)
    requires hops > 0 && path in After(cs)
    ensures Follow(After(cs), path, hops) != path
  {
    FollowDescends(cs, path, hops);
  }

  /** The rows a walk from `path` can still use. */
  function Ahead(cs: seq<Change>, path: string): set<string> {
    set f | f in After(cs) && LastFrom(cs, f) <= LastFrom(cs, path)
  }

  lemma {:induction false} SettlesWithin(cs: seq<Change>, path: string, hops: nat)
    requires |Ahead(cs, path)| <= hops
    ensures Follow(After(cs), path, hops) !in After(cs)
    decreases hops
  {
    if path in After(cs) {
      var next := After(cs)[path].to;
      HopDescends(cs, path);
      assert path in Ahead(cs, path);
      Fewer(Ahead(cs, next), Ahead(cs, path), path);
      SettlesWithin(cs, next, hops - 1);
    }
  }

  lemma Fewer<T>(a: set<T>, b: set<T>, x: T)
    requires a <= b && x in b && x !in a
    ensures |a| < |b|
  {
    var rest := b - a;
    assert x in rest && b == a + rest;
  }

  lemma NoMore<T>(a: set<T>, b: set<T>)
    requires a <= b
    ensures |a| <= |b|
  {
    assert b == a + (b - a);
  }

  /** Following redirects ends within as many hops as there are rows. */
  lemma RedirectsEnd(cs: seq<Change>, path: string)
    ensures Follow(After(cs), path, |After(cs)|) !in After(cs)
  {
    NoMore(Ahead(cs, path), After(cs).Keys);
    SettlesWithin(cs, path, |After(cs)|);
  }

  // What one change leaves behind

  function Folder(sourceType: string): string {
    if sourceType == "static_page" then "page" else if sourceType == "blog_post" then "blog" else sourceType
  }

  /** Exactly these changes count, and each kind of entity has its own path. */
  lemma EffectiveIff(c: Change)
    ensures Effective(c) <==>
              && c.oldSlug.Some? && c.newSlug.Some? && c.oldSlug.value != c.newSlug.value
              && {c.oldSlug.value, c.newSlug.value} !! {"", "0"}
              && c.sourceType in {"product", "category", "brand", "collection", "static_page", "blog_post"}
    ensures Effective(c) ==>
              && FromPath(c) == "/" + Folder(c.sourceType) + "/" + c.oldSlug.value
              && ToPath(c) == "/" + Folder(c.sourceType) + "/" + c.newSlug.value
  {
    assert "/product/" == "/" + "product" + "/" && "/category/" == "/" + "category" + "/" && "/brand/" == "/" + "brand" + "/";
    assert "/collection/" == "/" + "collection" + "/" && "/page/" == "/" + "page" + "/" && "/blog/" == "/" + "blog" + "/";
  }

  /** The old path leads to the new one, marked with the entity; rows into the old path are gone, others as before. */
  lemma ChangeLeaves(t: Table, c: Change, path: string)
    ensures var t1 := Recorded(t, c);
            && (!Effective(c) ==> t1 == t)
            && (Effective(c) && path == FromPath(c) ==>
                  path in t1 && t1[path] == Row(ToPath(c), c.sourceType, c.sourceId))
            && (Effective(c) && path != FromPath(c) ==>
                  && (path in t1 <==> path in t && t[path].to != FromPath(c))
                  && (path in t1 ==> t1[path] == t[path]))
  {
  }

  // What the deletion before the upsert costs and buys

  /** Taking a rename back leaves the reverse redirect alone, whatever was there before. */
  lemma RevertedRename(cs: seq<Change>, there: Change, back: Change)
    requires Effective(there) && back == there.(oldSlug := there.newSlug, newSlug := there.oldSlug)
    ensures var t := After(cs + [there] + [back]);
            && FromPath(there) !in t
            && ToPath(there) in t && t[ToPath(there)].to == FromPath(there)
  {
  }

  /** Renaming on drops the redirect of the first name: only the last step of a chain is kept. */
  lemma RenamedTwice(cs: seq<Change>, first: Change, second: Change)
    requires Effective(first) && Effective(second) && FromPath(second) == ToPath(first)
    ensures var t := After(cs + [first] + [second]);
            && FromPath(first) !in t
            && FromPath(second) in t && t[FromPath(second)].to == ToPath(second)
  {
  }

  /**
   The comment beside the deletion promises no chains. The new row starts one if and only if the
   new path was itself renamed away from before, other than to the path just left.
   */
  lemma ChainIff(t: Table, c: Change)
    requires Effective(c)
    ensures var t1 := Recorded(t, c);
            && FromPath(c) in t1 && t1[FromPath(c)].to == ToPath(c)
            && (Follow(t1, FromPath(c), 1) in t1 <==> ToPath(c) in t && t[ToPath(c)].to != FromPath(c))
  {
  }

  /** Renaming b to c and then another product from a to b chains the two redirects. */
  lemma ChainedRenames(id: nat, other: nat)
    ensures var t := After([Change("product", id, Some("b"), Some("c"))] + [Change("product", other, Some("a"), Some("b"))]);
            && Follow(t, "/product/a", 1) == "/product/b" && "/product/b" in t
            && Follow(t, "/product/a", 2) == "/product/c"
  {
    var first, second := Change("product", id, Some("b"), Some("c")), Change("product", other, Some("a"), Some("b"));
    assert PATH_PREFIXES["product"] == "/product/";
    assert FromPath(first) == "/product/b" && ToPath(first) == "/product/c";
    assert FromPath(second) == "/product/a" && ToPath(second) == "/product/b";
    assert "/product/a"[9] != "/product/b"[9] && "/product/a"[9] != "/product/c"[9];
    var t := Recorded(map[], first);
    assert After([first]) == t;
    assert ([first] + [second])[..1] == [first];
    assert After([first] + [second]) == Recorded(t, second);
  }
}

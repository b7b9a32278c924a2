/** The color catalog: a constant, ordered table of eight records, and the
    "first index whose name equals the query" search the per-color routes share. */
module Catalog {
  import opened Wrappers

  /** One catalog entry: a color name with its terminal foreground and
      background escape codes. */
  datatype ColorRecord = ColorRecord(name: string, fgCode: int, bgCode: int)

  /** The catalog, in its canonical (index) order. */
  const Colors: seq<ColorRecord> := [
    ColorRecord("black",   30, 40),
    ColorRecord("red",     31, 41),
    ColorRecord("green",   32, 42),
    ColorRecord("yellow",  33, 43),
    ColorRecord("blue",    34, 44),
    ColorRecord("magenta", 35, 45),
    ColorRecord("cyan",    36, 46),
    ColorRecord("white",   37, 47)
  ]

  /** No two records of `cat` share a name. */
  ghost predicate NamesDistinct(cat: seq<ColorRecord>) {
    forall i, j :: 0 <= i < j < |cat| ==> cat[i].name != cat[j].name
  }

  /** Some record of `cat` is called `name`. */
  ghost predicate Named(cat: seq<ColorRecord>, name: string) {
    exists i :: 0 <= i < |cat| && cat[i].name == name
  }

  /** Linear scan of `cat` from position `from`: the first index at or after
      `from` whose record is called exactly `name`, or None. */
  function FindFrom(cat: seq<ColorRecord>, name: string, from: nat): (r: Option<nat>)
    requires from <= |cat|
    ensures r.Some? ==> from <= r.value < |cat| && cat[r.value].name == name
    ensures r.Some? ==> forall j :: from <= j < r.value ==> cat[j].name != name
    ensures r.None? <==> forall j :: from <= j < |cat| ==> cat[j].name != name
    decreases |cat| - from
  {
    if from == |cat| then None
    else if cat[from].name == name then Some(from)
    else FindFrom(cat, name, from + 1)
  }

  /** The lookup the routes perform over the catalog: the smallest index whose
      record is called `name` (case-sensitive, no normalisation), or None
      exactly when no record has that name. */
  function Lookup(name: string): (r: Option<nat>)
    ensures r.Some? ==> r.value < |Colors| && Colors[r.value].name == name
    ensures r.Some? ==> forall j :: 0 <= j < r.value ==> Colors[j].name != name
    ensures r.None? <==> !Named(Colors, name)
  {
    FindFrom(Colors, name, 0)
  }

  /** The catalog's names are pairwise distinct. */
  lemma CatalogNamesDistinct()
    ensures NamesDistinct(Colors)
  {
    forall i, j | 0 <= i < j < |Colors|
      ensures Colors[i].name != Colors[j].name
    {
      var a, b := Colors[i].name, Colors[j].name;
      assert |a| != |b| || a[0] != b[0] || a[|a| - 1] != b[|b| - 1];
    }
  }

  /** Because names are distinct, a match is unique: looking up the name of
      the record at index `i` finds exactly `i`. */
  lemma LookupFindsIndex(i: nat)
    requires i < |Colors|
    ensures Lookup(Colors[i].name) == Some(i)
  {
    CatalogNamesDistinct();
    assert Named(Colors, Colors[i].name);
  }
}

/**
 * The imperative code of the photos screen: the insertion-ordered map the
 * grouping fills, the grouping loop itself, the construction of the list of
 * unique photographers and the lookup of one photographer by name. Each is
 * proved against the specification in module PhotoSpec.
 */
module PhotosScreen {
  import opened Wrappers
  import opened PhotoSpec

  /**
   * A `MutableMap<String, MutableList<String>>` created by `mutableMapOf()`:
   * a hash map that iterates its keys in insertion order. `order` is that
   * iteration order, `entries` the key-value pairs.
   */
  class PhotographerMap {
    var order: seq<string>
    var entries: map<string, seq<string>>

    ghost predicate Valid()
      reads this
    {
      Distinct(order) && entries.Keys == set k | k in order
    }

    constructor ()
      ensures Valid() && order == [] && entries == map[]
    {
      order := [];
      entries := map[];
    }

    /** `get`: the list stored under `key`, or null when there is none. */
    method Get(key: string) returns (r: Option<seq<string>>)
      requires Valid()
      ensures r.Some? <==> key in entries
      ensures r.Some? ==> r.value == entries[key]
    {
      r := if key in entries then Some(entries[key]) else None;
    }

    /**
     * `put` / indexed assignment: a new key goes to the end of the iteration
     * order, an existing key keeps its place and gets the new value.
     */
    method Put(key: string, value: seq<string>)
      requires Valid()
      modifies this
      ensures Valid()
      ensures entries == old(entries)[key := value]
      ensures order == if key in old(entries) then old(order) else old(order) + [key]
    {
      if key !in entries {
        order := order + [key];
      }
      entries := entries[key := value];
    }
  }

  /**
   * getMapPhotographerPhotos: one pass over the results, creating a
   * one-element group for a new photographer and appending to the group of a
   * known one. The map has one key per photographer present, in order of
   * first appearance, holding that photographer's URLs in input order.
   */
  method GetMapPhotographerPhotos(results: seq<Photo>) returns (m: PhotographerMap)
    ensures fresh(m) && m.Valid()
    ensures m.order == FirstAppearances(results)
    ensures m.entries == Grouped(results)
  {
    var listLastIndex := |results| - 1;
    m := new PhotographerMap();
    var i := 0;
    while i <= listLastIndex
      invariant 0 <= i <= |results|
      invariant fresh(m) && m.Valid()
      invariant m.order == FirstAppearances(results[..i])
      invariant m.entries == Grouped(results[..i])
    {
      var photographer := results[i].photographer;
      GroupingStep(results, i);
      var listPhotos := m.Get(photographer);
      if listPhotos == None {
        var newList := [results[i].photoUrl];
        m.Put(photographer, newList);
      } else {
        var appended := listPhotos.value + [results[i].photoUrl];
        m.Put(photographer, appended);
      }
      i := i + 1;
    }
    assert results[..i] == results;
  }

  /**
   * The list of unique photographers built from the map's keys, in the
   * map's iteration order, each paired with the result of `map[key]`.
   */
  method BuildUniquePhotographers(m: PhotographerMap) returns (list: seq<UniquePhotographer>)
    requires m.Valid()
    ensures |list| == |m.order|
    ensures forall i | 0 <= i < |list| ::
      m.order[i] in m.entries &&
      list[i] == UniquePhotographer(m.order[i], Some(m.entries[m.order[i]]))
  {
    list := [];
    for i := 0 to |m.order|
      invariant |list| == i
      invariant forall j | 0 <= j < i ::
        m.order[j] in m.entries &&
        list[j] == UniquePhotographer(m.order[j], Some(m.entries[m.order[j]]))
    {
      var key := m.order[i];
      var photos := m.Get(key);
      list := list + [UniquePhotographer(key, photos)];
    }
  }

  /**
   * The body of PhotosScreen below the search bar: group the current results
   * and build the photographers row's list from the grouping.
   */
  method BuildPhotographersRow(results: seq<Photo>) returns (list: seq<UniquePhotographer>)
    ensures ShowsGrouping(results, list)
  {
    var mapPhotographerPhoto := GetMapPhotographerPhotos(results);
    list := BuildUniquePhotographers(mapPhotographerPhoto);
  }

  /**
   * The lookup in PhotographerThing: scan the whole list, remembering every
   * entry whose name equals `photographerName`, so the last one wins.
   */
  method FindPhotographer(photographerName: string, list: seq<UniquePhotographer>)
    returns (name: Option<UniquePhotographer>)
    ensures name == LastMatch(list, photographerName)
  {
    name := None;
    for i := 0 to |list|
      invariant name == LastMatch(list[..i], photographerName)
    {
      assert list[..i + 1][..i] == list[..i];
      if list[i].photographerName == photographerName {
        name := Some(list[i]);
      }
    }
    assert list[..|list|] == list;
  }
}

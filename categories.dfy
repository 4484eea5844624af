/**
 * The registry of user-defined categories: a map from a category name to its icon and
 * color. The backing JSON file is the `categories` field.
 */
module Categories {
  import opened Wrappers

  datatype CategoryInfo = CategoryInfo(icon: string, color: string)

  /**
   * Inserting or overwriting one entry: `name` maps to `info` afterwards, no other
   * entry changes, and the map grows by one exactly when `name` was new.
   */
  function Put(m: map<string, CategoryInfo>, name: string, info: CategoryInfo): (r: map<string, CategoryInfo>)
    ensures name in r && r[name] == info
    ensures r.Keys == m.Keys + {name}
    ensures forall n :: n in m && n != name ==> r[n] == m[n]
    ensures |r| == if name in m then |m| else |m| + 1
  {
    var r := m[name := info];
    assert name !in m ==> r.Keys == m.Keys + {name} && name !in m.Keys;
    r
  }

  /** Adding the same entry twice leaves the same map as adding it once. */
  lemma PutIdempotent(m: map<string, CategoryInfo>, name: string, info: CategoryInfo)
    ensures Put(Put(m, name, info), name, info) == Put(m, name, info)
  {
  }

  /** The last write to a name wins. */
  lemma PutOverwrites(m: map<string, CategoryInfo>, name: string, first: CategoryInfo, second: CategoryInfo)
    ensures Put(Put(m, name, first), name, second) == Put(m, name, second)
  {
  }

  class CategoryRegistry {
    /** The custom categories, by name. */
    var categories: map<string, CategoryInfo>

    /**
     * Opening the registry keeps the categories already persisted, or starts with none
     * when nothing is persisted yet.
     */
    constructor (persisted: Option<map<string, CategoryInfo>>)
      ensures categories == if persisted.Some? then persisted.value else map[]
    {
      categories := if persisted.Some? then persisted.value else map[];
    }

    /** The whole map; a name is in it exactly when the single lookup finds it. */
    function GetCustomCategories(): (m: map<string, CategoryInfo>)
      reads this
      ensures m == categories
      ensures forall n :: n in m <==> GetCategory(n).Some?
    {
      categories
    }

    /** Inserts or overwrites the entry for `name`; any name is accepted. */
    method AddCustomCategory(name: string, icon: string, color: string)
      modifies this
      ensures categories == Put(old(categories), name, CategoryInfo(icon, color))
    {
      categories := Put(categories, name, CategoryInfo(icon, color));
    }

    /** The entry for `name`, or None when there is none. */
    function GetCategory(name: string): (r: Option<CategoryInfo>)
      reads this
      ensures r.Some? <==> name in categories
      ensures r.Some? ==> r.value == categories[name]
    {
      if name in categories then Some(categories[name]) else None
    }
  }

  /** A fresh registry, one addition, then the whole-map read and two single lookups. */
  method AddThenLookUp()
  {
    var registry := new CategoryRegistry(None);
    registry.AddCustomCategory("Hobbies", "🎨", "#AABBCC");
    assert registry.GetCustomCategories() == map["Hobbies" := CategoryInfo("🎨", "#AABBCC")];
    assert registry.GetCategory("Hobbies") == Some(CategoryInfo("🎨", "#AABBCC"));
    assert registry.GetCategory("Nonexistent") == None;
  }
}

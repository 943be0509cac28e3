/**
  The kanji database of both tools is a Python dictionary from a key string to
  a list of records, grown with one idiom: fetch the list under a key, create
  and store an empty one on first use, then append. `ListDict` is that
  dictionary; its lists are values, since no two keys ever share a list object.
*/
module DictIndex {

  /** `db.get(key, [])`. */
  function Lookup<R>(m: map<string, seq<R>>, key: string): seq<R>
  {
    if key in m then m[key] else []
  }

  /** `set(xs)`. */
  function Elements<R>(xs: seq<R>): set<R>
  {
    set x | x in xs
  }

  /**
    The dictionary after `r` is appended to the list under `key`: that list
    grows by `r` at its end (starting from empty when the key was absent),
    the key becomes present, and every other key keeps its list.
  */
  function Appended<R>(m: map<string, seq<R>>, key: string, r: R): (m': map<string, seq<R>>)
    ensures m'.Keys == m.Keys + {key}
    ensures forall k :: Lookup(m', k) == Lookup(m, k) + (if k == key then [r] else [])
  {
    m[key := Lookup(m, key) + [r]]
  }

  class ListDict<R> {
    var lists: map<string, seq<R>>

    /** `{}`: a dictionary with no keys. */
    constructor ()
      ensures lists == map[]
    {
      lists := map[];
    }

    /** Appends `r` to the list under `key`, creating that list on first use. */
    method AppendUnder(key: string, r: R)
      modifies this
      ensures lists == Appended(old(lists), key, r)
    {
      var list: seq<R>;
      if key in lists {
        list := lists[key];
      } else {
        list := [];
        lists := lists[key := list];
      }
      lists := lists[key := list + [r]];
    }
  }
}

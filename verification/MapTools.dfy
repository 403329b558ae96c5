/** Dictionaries cut to some keys, and filled from others, in place. */
module MapTools {

  /** The entries under some keys only. */
  function Only<K, V>(m: map<K, V>, keys: set<K>): map<K, V> {
    map key | key in m && key in keys :: m[key]
  }

  /** `target`, with each of `keys` it lacks taken from `source`. */
  function Defaults<K, V>(target: map<K, V>, source: map<K, V>, keys: set<K>): map<K, V> {
    map key | key in target.Keys + source.Keys && (key in target || key in keys) ::
      if key in target then target[key] else source[key]
  }

  /** Pops every key outside `keys`. */
  method PopOthers<K, V>(m: map<K, V>, keys: set<K>) returns (r: map<K, V>)
    ensures r == Only(m, keys)
  {
    r := m;
    var left := m.Keys - keys;
    while left != {}
      invariant left <= m.Keys - keys
      invariant forall key :: key in r <==> key in m && (key in keys || key in left)
      invariant forall key <- r :: r[key] == m[key]
      decreases |left|
    {
      var key :| key in left;
      r := r - {key};
      left := left - {key};
    }
    assert r.Keys == Only(m, keys).Keys;
  }

  /** Sets each of `keys` the target lacks, where the source has it. */
  method SetDefaults<K, V>(target: map<K, V>, source: map<K, V>, keys: set<K>) returns (r: map<K, V>)
    ensures r == Defaults(target, source, keys)
  {
    r := target;
    var left := keys;
    while left != {}
      invariant left <= keys
      invariant r == Defaults(target, source, keys - left)
      decreases |left|
    {
      var key :| key in left;
      if key in source && key !in r {
        r := r[key := source[key]];
      }
      left := left - {key};
    }
    assert keys - left == keys;
  }
}

/** How many entries of a map satisfy a property, and how that changes with one entry. */
module Counting {

  ghost function Where<K(!new), V>(m: map<K, V>, p: V -> bool): set<K> {
    set x | x in m.Keys && p(m[x])
  }

  ghost function Count<K(!new), V>(m: map<K, V>, p: V -> bool): nat {
    |Where(m, p)|
  }

  lemma CountPut<K(!new), V>(m: map<K, V>, p: V -> bool, key: K, value: V)
    ensures Count(m[key := value], p)
         == Count(m, p) - (if key in m && p(m[key]) then 1 else 0) + (if p(value) then 1 else 0)
  {
    var before, after := Where(m, p), Where(m[key := value], p);
    assert key in after <==> p(value);
    assert after - {key} == before - {key} by {
      forall x | x != key ensures x in after <==> x in before {
        assert x in m[key := value].Keys <==> x in m.Keys;
      }
    }
    SizeWithout(before, key);
    SizeWithout(after, key);
  }

  lemma SizeWithout<K>(s: set<K>, x: K)
    ensures |s - {x}| == |s| - (if x in s then 1 else 0)
  {
    if x !in s {
      assert s - {x} == s;
    }
  }

  lemma CountDrop<K(!new), V>(m: map<K, V>, p: V -> bool, key: K)
    ensures Count(m - {key}, p) == Count(m, p) - (if key in m && p(m[key]) then 1 else 0)
  {
    assert Where(m - {key}, p) == Where(m, p) - {key};
    SizeWithout(Where(m, p), key);
  }

  lemma CountNone<K(!new), V>(m: map<K, V>, p: V -> bool)
    requires forall x | x in m :: !p(m[x])
    ensures Count(m, p) == 0
  {
    assert Where(m, p) == {};
  }
}

/**
 * Dictionary re-keying used by the bimanual robots and the SO-101 arms: adding or
 * removing a key prefix (`f"left_{key}"`, `key.removeprefix("left_")`) or a key suffix
 * (`f"{motor}.pos"`, `key.removesuffix(".pos")`), and keeping only the keys that carry it.
 */
module Keys {
  import opened Text

  /** `{f"{p}{k}": v for k, v in m.items()}` */
  function AddPrefix<V>(m: map<string, V>, p: string): (r: map<string, V>)
    ensures forall k :: k in m ==> p + k in r && r[p + k] == m[k]
    ensures forall k :: k in r ==> StartsWith(k, p) && k[|p|..] in m && m[k[|p|..]] == r[k]
  {
    assert forall a, b :: p + a == p + b ==> a == b by {
      forall a, b ensures p + a == p + b ==> a == b {
        PrefixInjective(p, a, b);
      }
    }
    var r := map k | k in m :: p + k := m[k];
    assert forall k :: k in r ==> StartsWith(k, p) && k[|p|..] in m && m[k[|p|..]] == r[k] by {
      forall k | k in r ensures StartsWith(k, p) && k[|p|..] in m && m[k[|p|..]] == r[k] {
        var j :| j in m && k == p + j;
        StartsWithConcat(p, j);
      }
    }
    r
  }

  lemma Unprefix(k: string, p: string)
    requires StartsWith(k, p)
    ensures p + k[|p|..] == k
  {
    assert k == k[..|p|] + k[|p|..];
  }

  lemma Unsuffix(k: string, s: string)
    requires EndsWith(k, s)
    ensures k[..|k| - |s|] + s == k
  {
    assert k == k[..|k| - |s|] + k[|k| - |s|..];
  }

  /** `{k.removeprefix(p): v for k, v in m.items() if k.startswith(p)}` */
  function StripPrefix<V>(m: map<string, V>, p: string): (r: map<string, V>)
    ensures forall k :: k in r <==> p + k in m
    ensures forall k :: k in r ==> r[k] == m[p + k]
  {
    var stems := set k | k in m && StartsWith(k, p) :: k[|p|..];
    assert forall k :: k in stems <==> p + k in m by {
      forall k ensures k in stems <==> p + k in m {
        StartsWithConcat(p, k);
        if k in stems {
          var j :| j in m && StartsWith(j, p) && k == j[|p|..];
          Unprefix(j, p);
        }
      }
    }
    map k | k in stems :: m[p + k]
  }

  /** The entries of `m` whose key starts with `p`. */
  function WithPrefix<V>(m: map<string, V>, p: string): (r: map<string, V>)
    ensures forall k :: k in r <==> k in m && StartsWith(k, p)
    ensures forall k :: k in r ==> r[k] == m[k]
  {
    map k | k in m && StartsWith(k, p) :: m[k]
  }

  /** Removing a prefix and putting it back keeps exactly the entries that had it. */
  lemma {:induction false} StripThenAddPrefix<V>(m: map<string, V>, p: string)
    ensures AddPrefix(StripPrefix(m, p), p) == WithPrefix(m, p)
  {
    var l := AddPrefix(StripPrefix(m, p), p);
    var r := WithPrefix(m, p);
    forall k ensures k in l <==> k in r {
      if k in r {
        Unprefix(k, p);
        assert k[|p|..] in StripPrefix(m, p);
      }
      if k in l {
        Unprefix(k, p);
      }
    }
    forall k | k in l ensures l[k] == r[k] {
      Unprefix(k, p);
    }
  }

  /** Adding a prefix and removing it again gives the map back. */
  lemma AddThenStripPrefix<V>(m: map<string, V>, p: string)
    ensures StripPrefix(AddPrefix(m, p), p) == m
  {
    var r := StripPrefix(AddPrefix(m, p), p);
    forall k ensures k in r <==> k in m {
      if p + k in AddPrefix(m, p) {
        StartsWithConcat(p, k);
      }
    }
    assert forall k :: k in r ==> r[k] == m[k] by {
      forall k | k in r ensures r[k] == m[k] {
        StartsWithConcat(p, k);
      }
    }
  }

  /** `{f"{k}{s}": v for k, v in m.items()}` */
  function AddSuffix<V>(m: map<string, V>, s: string): (r: map<string, V>)
    ensures forall k {:trigger k + s} :: k in m ==> k + s in r && r[k + s] == m[k]
    ensures forall k :: k in r ==> EndsWith(k, s) && k[..|k| - |s|] in m && m[k[..|k| - |s|]] == r[k]
  {
    var keys := set k | k in m :: k + s;
    assert forall j :: j in keys ==> EndsWith(j, s) && j[..|j| - |s|] in m by {
      forall j | j in keys ensures EndsWith(j, s) && j[..|j| - |s|] in m {
        var k :| k in m && j == k + s;
        EndsWithConcat(k, s);
      }
    }
    var r := map j | j in keys :: m[j[..|j| - |s|]];
    assert forall k :: k in m ==> k + s in r && r[k + s] == m[k] by {
      forall k | k in m ensures k + s in r && r[k + s] == m[k] {
        EndsWithConcat(k, s);
      }
    }
    r
  }

  /** `{k.removesuffix(s): v for k, v in m.items() if k.endswith(s)}` */
  function StripSuffix<V>(m: map<string, V>, s: string): (r: map<string, V>)
    ensures forall k {:trigger k + s} :: k in r <==> k + s in m
    ensures forall k {:trigger k + s} :: k in r ==> r[k] == m[k + s]
  {
    var stems := set k | k in m && EndsWith(k, s) :: k[..|k| - |s|];
    assert forall k :: k in stems <==> k + s in m by {
      forall k ensures k in stems <==> k + s in m {
        EndsWithConcat(k, s);
        if k in stems {
          var j :| j in m && EndsWith(j, s) && k == j[..|j| - |s|];
          Unsuffix(j, s);
        }
      }
    }
    map k | k in stems :: m[k + s]
  }

  /** The entries of `m` whose key ends with `s`. */
  function WithSuffix<V>(m: map<string, V>, s: string): (r: map<string, V>)
    ensures forall k :: k in r <==> k in m && EndsWith(k, s)
    ensures forall k :: k in r ==> r[k] == m[k]
  {
    map k | k in m && EndsWith(k, s) :: m[k]
  }

  /** Removing a suffix and putting it back keeps exactly the entries that had it. */
  lemma {:induction false} StripThenAddSuffix<V>(m: map<string, V>, s: string)
    ensures AddSuffix(StripSuffix(m, s), s) == WithSuffix(m, s)
  {
    var l := AddSuffix(StripSuffix(m, s), s);
    var r := WithSuffix(m, s);
    forall k ensures k in l <==> k in r {
      if k in r {
        Unsuffix(k, s);
        assert k[..|k| - |s|] in StripSuffix(m, s);
      }
      if k in l {
        Unsuffix(k, s);
      }
    }
    forall k | k in l ensures l[k] == r[k] {
      Unsuffix(k, s);
    }
  }

  /** Adding a suffix and removing it again gives the map back. */
  lemma AddThenStripSuffix<V>(m: map<string, V>, s: string)
    ensures forall k :: k in StripSuffix(AddSuffix(m, s), s) <==> k in m
    ensures forall k :: k in m ==> StripSuffix(AddSuffix(m, s), s)[k] == m[k]
  {
    var r := StripSuffix(AddSuffix(m, s), s);
    forall k | k in r ensures k in m {
      StrippedKeyKept(m, s, k);
    }
    forall k | k in m ensures k in r && r[k] == m[k] {
      AddedKeyStripped(m, s, k);
      StrippedKeyKept(m, s, k);
    }
  }

  lemma AddedKeyStripped<V>(m: map<string, V>, s: string, k: string)
    requires k in m
    ensures k in StripSuffix(AddSuffix(m, s), s)
  {
    assert k + s in AddSuffix(m, s);
  }

  lemma StrippedKeyKept<V>(m: map<string, V>, s: string, k: string)
    requires k in StripSuffix(AddSuffix(m, s), s)
    ensures k in m && StripSuffix(AddSuffix(m, s), s)[k] == m[k]
  {
    var j := k + s;
    assert j[..|j| - |s|] == k;
  }
}

/**
 * Name/value pairs, the form in which request parameters leave the request:
 * one pair per parameter, its value rendered as text. The map they come
 * from is a hash map, so no order is promised; what is promised is which
 * pairs there are.
 */
module NameValuePairs {

  /** A parameter name with its value rendered as text. */
  datatype Pair = Pair(name: string, value: string)

  /** The names that occur in `ps`. */
  function Names(ps: seq<Pair>): set<string>
  {
    if ps == [] then {} else Names(ps[..|ps| - 1]) + {ps[|ps| - 1].name}
  }

  /** No name occurs twice in `ps`. */
  ghost predicate DistinctNames(ps: seq<Pair>)
  {
    forall i, j :: 0 <= i < j < |ps| ==> ps[i].name != ps[j].name
  }

  /**
   * `ps` lists every entry of `m` once, in some order, with its value
   * rendered by `toText`.
   */
  ghost predicate IsFlattening<V>(ps: seq<Pair>, m: map<string, V>, toText: V -> string)
  {
    && |ps| == |m|
    && DistinctNames(ps)
    && Names(ps) == m.Keys
    && forall i :: 0 <= i < |ps| ==> ps[i].name in m && ps[i].value == toText(m[ps[i].name])
  }

  /**
   * Part way through flattening `m`: `ps` lists, in some order, each entry
   * of `m` whose key is not in `rest`.
   */
  ghost predicate FlattensExcept<V>(ps: seq<Pair>, m: map<string, V>, rest: set<string>, toText: V -> string)
  {
    && rest <= m.Keys
    && Names(ps) == m.Keys - rest
    && DistinctNames(ps)
    && forall i :: 0 <= i < |ps| ==> ps[i].name in m && ps[i].value == toText(m[ps[i].name])
  }

  /** The textual map that the pairs describe, as a receiver decoding them rebuilds it. */
  function ToMap(ps: seq<Pair>): map<string, string>
  {
    if ps == [] then map[] else ToMap(ps[..|ps| - 1])[ps[|ps| - 1].name := ps[|ps| - 1].value]
  }

  /** The map `m` with every value rendered by `toText`. */
  function Rendered<V>(m: map<string, V>, toText: V -> string): map<string, string>
  {
    map k | k in m :: toText(m[k])
  }

  lemma {:induction false} NamesMembership(ps: seq<Pair>, n: string)
    ensures n in Names(ps) <==> exists i :: 0 <= i < |ps| && ps[i].name == n
  {
    if ps != [] {
      var init := ps[..|ps| - 1];
      NamesMembership(init, n);
      if n in Names(init) {
        var i :| 0 <= i < |init| && init[i].name == n;
        assert ps[i].name == n;
      }
      forall i | 0 <= i < |ps| - 1 ensures ps[i] == init[i] { }
    }
  }

  /** With distinct names, there are as many names as pairs. */
  lemma {:induction false} DistinctNamesCount(ps: seq<Pair>)
    requires DistinctNames(ps)
    ensures |Names(ps)| == |ps|
  {
    if ps != [] {
      var init := ps[..|ps| - 1];
      var last := ps[|ps| - 1];
      assert DistinctNames(init) by {
        forall i, j | 0 <= i < j < |init| ensures init[i].name != init[j].name {
          assert init[i] == ps[i] && init[j] == ps[j];
        }
      }
      DistinctNamesCount(init);
      assert last.name !in Names(init) by {
        NamesMembership(init, last.name);
        forall i | 0 <= i < |init| ensures init[i].name != last.name {
          assert init[i] == ps[i];
        }
      }
    }
  }

  /** Appending the entry of one key still to do keeps the flattening going. */
  lemma FlattenStep<V>(ps: seq<Pair>, m: map<string, V>, rest: set<string>, toText: V -> string, key: string)
    requires FlattensExcept(ps, m, rest, toText) && key in rest
    ensures FlattensExcept(ps + [Pair(key, toText(m[key]))], m, rest - {key}, toText)
  {
    var next := ps + [Pair(key, toText(m[key]))];
    assert next[..|ps|] == ps;
    NamesMembership(ps, key);
  }

  /** Once no key is left, the pairs are a flattening of the whole map. */
  lemma FlattenDone<V>(ps: seq<Pair>, m: map<string, V>, toText: V -> string)
    requires FlattensExcept(ps, m, {}, toText)
    ensures IsFlattening(ps, m, toText)
  {
    DistinctNamesCount(ps);
  }

  /** Every map has a flattening. */
  lemma SomeFlattening<V>(m: map<string, V>, toText: V -> string) returns (ps: seq<Pair>)
    ensures IsFlattening(ps, m, toText)
  {
    ps := [];
    var rest := m.Keys;
    while rest != {}
      invariant FlattensExcept(ps, m, rest, toText)
      decreases rest
    {
      var key :| key in rest;
      FlattenStep(ps, m, rest, toText, key);
      ps, rest := ps + [Pair(key, toText(m[key]))], rest - {key};
    }
    FlattenDone(ps, m, toText);
  }

  /** With distinct names, the rebuilt map holds exactly the pairs. */
  lemma {:induction false} ToMapOfDistinct(ps: seq<Pair>)
    requires DistinctNames(ps)
    ensures ToMap(ps).Keys == Names(ps)
    ensures forall i :: 0 <= i < |ps| ==> ps[i].name in ToMap(ps) && ToMap(ps)[ps[i].name] == ps[i].value
  {
    if ps != [] {
      var init := ps[..|ps| - 1];
      var last := ps[|ps| - 1];
      assert DistinctNames(init) by {
        forall i, j | 0 <= i < j < |init| ensures init[i].name != init[j].name {
          assert init[i] == ps[i] && init[j] == ps[j];
        }
      }
      ToMapOfDistinct(init);
      forall i | 0 <= i < |ps| ensures ps[i].name in ToMap(ps) && ToMap(ps)[ps[i].name] == ps[i].value {
        if i < |ps| - 1 {
          assert ps[i] == init[i];
          assert ps[i].name != last.name;
        }
      }
    }
  }

  /**
   * Round trip: decoding a flattening of `m` gives back `m`, each value as
   * text, whatever order the pairs were produced in.
   */
  lemma FlatteningRoundTrip<V>(ps: seq<Pair>, m: map<string, V>, toText: V -> string)
    requires IsFlattening(ps, m, toText)
    ensures ToMap(ps) == Rendered(m, toText)
  {
    ToMapOfDistinct(ps);
    forall k | k in m ensures ToMap(ps)[k] == toText(m[k]) {
      NamesMembership(ps, k);
      var i :| 0 <= i < |ps| && ps[i].name == k;
    }
  }

  /** In a sequence with distinct names, every pair occurs at most once. */
  lemma {:induction false} DistinctMultiplicity(ps: seq<Pair>, x: Pair)
    requires DistinctNames(ps)
    ensures multiset(ps)[x] == if x in ps then 1 else 0
  {
    if ps != [] {
      var init := ps[..|ps| - 1];
      var last := ps[|ps| - 1];
      assert ps == init + [last];
      assert DistinctNames(init) by {
        forall i, j | 0 <= i < j < |init| ensures init[i].name != init[j].name {
          assert init[i] == ps[i] && init[j] == ps[j];
        }
      }
      DistinctMultiplicity(init, x);
      assert last !in init by {
        forall i | 0 <= i < |init| ensures init[i].name != last.name {
          assert init[i] == ps[i];
        }
      }
    }
  }

  /**
   * Two flattenings of the same map differ at most in order: each is a
   * permutation of the other.
   */
  lemma FlatteningsArePermutations<V>(ps: seq<Pair>, qs: seq<Pair>, m: map<string, V>, toText: V -> string)
    requires IsFlattening(ps, m, toText) && IsFlattening(qs, m, toText)
    ensures multiset(ps) == multiset(qs)
  {
    forall x: Pair ensures multiset(ps)[x] == multiset(qs)[x] {
      DistinctMultiplicity(ps, x);
      DistinctMultiplicity(qs, x);
      if x in ps { OccursInBoth(ps, qs, m, toText, x); }
      if x in qs { OccursInBoth(qs, ps, m, toText, x); }
    }
  }

  lemma OccursInBoth<V>(ps: seq<Pair>, qs: seq<Pair>, m: map<string, V>, toText: V -> string, x: Pair)
    requires IsFlattening(ps, m, toText) && IsFlattening(qs, m, toText)
    requires x in ps
    ensures x in qs
  {
    var i :| 0 <= i < |ps| && ps[i] == x;
    NamesMembership(qs, x.name);
    var j :| 0 <= j < |qs| && qs[j].name == x.name;
    assert qs[j] == x;
  }
}

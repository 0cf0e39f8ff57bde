/**
 * Key/value lists built from a Java `Map<String, String>` by iterating over its
 * key set: the form fields of a map body and the headers of a request.
 */
module KeyValues {

  type Entry = (string, string)

  /** `es` holds every binding of `m` exactly once, in some order. */
  ghost predicate ListsMap(es: seq<Entry>, m: map<string, string>)
  {
    (forall i :: 0 <= i < |es| ==> es[i].0 in m && m[es[i].0] == es[i].1)
    && (forall i, j :: 0 <= i < j < |es| ==> es[i].0 != es[j].0)
    && (forall k :: k in m ==> exists i :: 0 <= i < |es| && es[i].0 == k)
  }

  /** Reads a list of entries back into a map; a later entry wins over an earlier one. */
  function ToMap(es: seq<Entry>): map<string, string>
    decreases |es|
  {
    if es == [] then map[] else ToMap(es[..|es| - 1])[es[|es| - 1].0 := es[|es| - 1].1]
  }

  /**
   * The loop `for (String key : m.keySet()) add(key, m.get(key))`: one entry per
   * key, in whatever order the key set is visited.
   */
  method Entries(m: map<string, string>) returns (es: seq<Entry>)
    ensures ListsMap(es, m)
  {
    es := [];
    var rest := m.Keys;
    ghost var done: set<string> := {};
    while rest != {}
      invariant done !! rest && done + rest == m.Keys
      invariant forall i :: 0 <= i < |es| ==> es[i].0 in done && m[es[i].0] == es[i].1
      invariant forall i, j :: 0 <= i < j < |es| ==> es[i].0 != es[j].0
      invariant forall k :: k in done ==> exists i :: 0 <= i < |es| && es[i].0 == k
      decreases rest
    {
      var key :| key in rest;
      ghost var before := es;
      es := es + [(key, m[key])];
      assert es[|before|].0 == key;
      forall k | k in done + {key}
        ensures exists i :: 0 <= i < |es| && es[i].0 == k
      {
        if k != key {
          var i :| 0 <= i < |before| && before[i].0 == k;
          assert es[i] == before[i];
        }
      }
      rest := rest - {key};
      done := done + {key};
    }
    assert done == m.Keys;
  }

  /** Parsing the entries back recovers the map exactly: the form round-trip. */
  lemma {:induction false} ParseBack(es: seq<Entry>, m: map<string, string>)
    requires ListsMap(es, m)
    ensures ToMap(es) == m
    decreases |es|
  {
    if es == [] {
      assert forall k :: k !in m;
    } else {
      var init, last := es[..|es| - 1], es[|es| - 1];
      var rest := m - {last.0};
      forall k | k in rest
        ensures exists i :: 0 <= i < |init| && init[i].0 == k
      {
        var i :| 0 <= i < |es| && es[i].0 == k;
        assert i < |init| && init[i].0 == k;
      }
      ParseBack(init, rest);
      assert ToMap(es) == rest[last.0 := last.1];
      assert rest[last.0 := last.1] == m;
    }
  }

  /** A list with distinct keys lists exactly the map it parses to. */
  lemma {:induction false} ListsParsed(es: seq<Entry>)
    requires forall i, j :: 0 <= i < j < |es| ==> es[i].0 != es[j].0
    ensures ListsMap(es, ToMap(es))
    decreases |es|
  {
    if es != [] {
      var init, last := es[..|es| - 1], es[|es| - 1];
      ListsParsed(init);
      var m := ToMap(es);
      forall i | 0 <= i < |es|
        ensures es[i].0 in m && m[es[i].0] == es[i].1
      {
        if i < |init| {
          assert init[i] == es[i];
        }
      }
      forall k | k in m
        ensures exists i :: 0 <= i < |es| && es[i].0 == k
      {
        if k != last.0 {
          var i :| 0 <= i < |init| && init[i].0 == k;
          assert es[i].0 == k;
        } else {
          assert es[|es| - 1].0 == k;
        }
      }
    }
  }

  /** One entry per key: a list of a map's bindings is exactly as long as the map. */
  lemma {:induction false} ListedOncePerKey(es: seq<Entry>, m: map<string, string>)
    requires ListsMap(es, m)
    ensures |es| == |m|
    decreases |es|
  {
    if es == [] {
      assert forall k :: k !in m;
      assert m.Keys == {};
    } else {
      var init, last := es[..|es| - 1], es[|es| - 1];
      var rest := m - {last.0};
      forall k | k in rest
        ensures exists i :: 0 <= i < |init| && init[i].0 == k
      {
        var i :| 0 <= i < |es| && es[i].0 == k;
        assert i < |init| && init[i].0 == k;
      }
      ListedOncePerKey(init, rest);
      assert rest.Keys == m.Keys - {last.0};
    }
  }
}

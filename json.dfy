/**
 * The values the pipeline stores in its JSON ledgers and reads from its CSV files.
 * A JSON object is a map, so the text that `json.dumps(..., sort_keys=True)` produces
 * depends on the key/value pairs only; `ObjectOf` shows how a Python dict, whose keys
 * keep their insertion order, is turned into that order-free value.
 */
module JsonValues {

  datatype Json =
    | JNull
    | JBool(b: bool)
    | JInt(i: int)
    | JStr(s: string)
    | JArr(items: seq<Json>)
    | JObj(fields: map<string, Json>)
  {
    predicate IsScalar() { !JArr? && !JObj? }
  }

  /** A CSV cell as pandas reads it: a string, an integer, a boolean or NaN (JNull). */
  type Cell = j: Json | j.IsScalar() witness JNull

  /** The entries of a Python dict in insertion order. */
  type Entries = seq<(string, Json)>

  predicate DistinctKeys(e: Entries) {
    forall i, j :: 0 <= i < j < |e| ==> e[i].0 != e[j].0
  }

  /** The key/value content of a dict built by inserting `e` in order (a later key overwrites). */
  function ObjectOf(e: Entries): (m: map<string, Json>)
    ensures m.Keys == set p | p in e :: p.0
  {
    if e == [] then map[] else ObjectOf(e[..|e| - 1])[e[|e| - 1].0 := e[|e| - 1].1]
  }

  /** With distinct keys, the object holds exactly the entries of the dict. */
  lemma {:induction false} ObjectOfEntries(e: Entries)
    requires DistinctKeys(e)
    ensures forall p :: p in e ==> p.0 in ObjectOf(e) && ObjectOf(e)[p.0] == p.1
  {
    if e != [] {
      var init := e[..|e| - 1];
      assert DistinctKeys(init);
      ObjectOfEntries(init);
      forall p | p in e
        ensures ObjectOf(e)[p.0] == p.1
      {
        if p != e[|e| - 1] {
          var i :| 0 <= i < |e| && e[i] == p;
          assert i < |e| - 1 && p in init;
        }
      }
    }
  }

  /**
   * Sorting keys makes the encoding independent of insertion order: two dicts with the
   * same entries, in any order, have the same canonical object.
   */
  lemma KeyOrderIrrelevant(e1: Entries, e2: Entries)
    requires DistinctKeys(e1) && DistinctKeys(e2)
    requires forall p :: p in e1 <==> p in e2
    ensures ObjectOf(e1) == ObjectOf(e2)
  {
    ObjectOfEntries(e1);
    ObjectOfEntries(e2);
    var m1, m2 := ObjectOf(e1), ObjectOf(e2);
    forall k | k in m1
      ensures k in m2 && m1[k] == m2[k]
    {
      var p :| p in e1 && p.0 == k;
      assert p in e2;
    }
  }
}

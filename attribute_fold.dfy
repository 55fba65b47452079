/** The `foreach` that writes a sequence of (name, value) pairs into a PHP
    array one after the other: `$atts[$name] = $value` in GetAttributes and
    UpdateAttributes, and `$params[$key] = $value` in UpdateAttributes. A later
    pair with the same name overwrites an earlier one. */
module AttributeFold {

  /** The names that occur in `pairs`. */
  function Names<V>(pairs: seq<(string, V)>): set<string>
  {
    set i | 0 <= i < |pairs| :: pairs[i].0
  }

  /** `m` after the assignments `m[name] := value` for every pair, in order. */
  function Overlay<V>(m: map<string, V>, pairs: seq<(string, V)>): map<string, V>
  {
    if pairs == [] then m
    else
      var last := pairs[|pairs| - 1];
      Overlay(m, pairs[..|pairs| - 1])[last.0 := last.1]
  }

  /** Position `i` holds the last occurrence of `name` in `pairs`. */
  predicate IsLastOccurrence<V>(pairs: seq<(string, V)>, name: string, i: int)
  {
    0 <= i < |pairs| && pairs[i].0 == name &&
    forall j :: i < j < |pairs| ==> pairs[j].0 != name
  }

  /** The loop itself: starting from `init`, assign every pair in turn. */
  method PutAll<V>(init: map<string, V>, pairs: seq<(string, V)>) returns (m: map<string, V>)
    ensures m == Overlay(init, pairs)
  {
    m := init;
    for i := 0 to |pairs|
      invariant m == Overlay(init, pairs[..i])
    {
      assert pairs[..i + 1][..i] == pairs[..i];
      m := m[pairs[i].0 := pairs[i].1];
    }
    assert pairs[..|pairs|] == pairs;
  }

  /** The names of `pairs` are those of all but its last pair, and the last one's. */
  lemma NamesOfFront<V>(pairs: seq<(string, V)>)
    requires pairs != []
    ensures Names(pairs) == Names(pairs[..|pairs| - 1]) + {pairs[|pairs| - 1].0}
  {
  }

  /** The keys after the fold are the keys before it and the names written. */
  lemma {:induction false} OverlayKeys<V>(m: map<string, V>, pairs: seq<(string, V)>)
    ensures Overlay(m, pairs).Keys == m.Keys + Names(pairs)
  {
    if pairs != [] {
      OverlayKeys(m, pairs[..|pairs| - 1]);
      NamesOfFront(pairs);
    }
  }

  /** A name that is written gets the value of its last occurrence. */
  lemma {:induction false} OverlayLastWins<V>(m: map<string, V>, pairs: seq<(string, V)>, name: string, i: int)
    requires IsLastOccurrence(pairs, name, i)
    ensures name in Overlay(m, pairs) && Overlay(m, pairs)[name] == pairs[i].1
  {
    var front := pairs[..|pairs| - 1];
    if i < |pairs| - 1 {
      assert IsLastOccurrence(front, name, i);
      OverlayLastWins(m, front, name, i);
    }
  }

  /** A name that is never written keeps the value it had before the fold. */
  lemma {:induction false} OverlayUntouched<V>(m: map<string, V>, pairs: seq<(string, V)>, name: string)
    requires name in m && name !in Names(pairs)
    ensures name in Overlay(m, pairs) && Overlay(m, pairs)[name] == m[name]
  {
    if pairs != [] {
      NamesOfFront(pairs);
      OverlayUntouched(m, pairs[..|pairs| - 1], name);
    }
  }

  /** Every name that occurs has a last occurrence, so with OverlayLastWins every
      written name's value is determined by the pairs alone. */
  lemma {:induction false} LastOccurrenceExists<V>(pairs: seq<(string, V)>, name: string)
    requires name in Names(pairs)
    ensures exists i :: IsLastOccurrence(pairs, name, i)
  {
    var k := |pairs| - 1;
    if pairs[k].0 == name {
      assert IsLastOccurrence(pairs, name, k);
    } else {
      var front := pairs[..k];
      assert name in Names(front) by {
        var j :| 0 <= j < |pairs| && pairs[j].0 == name;
        assert front[j] == pairs[j];
      }
      LastOccurrenceExists(front, name);
      var i :| IsLastOccurrence(front, name, i);
      assert IsLastOccurrence(pairs, name, i);
    }
  }

  /** The attribute dictionary GetAttributes and UpdateAttributes return: its
      keys are exactly the attribute names in the response, and each name maps
      to the value of its last occurrence. */
  lemma AttributeMapLastWins<V>(attributes: seq<(string, V)>)
    ensures Overlay(map[], attributes).Keys == Names(attributes)
    ensures forall i | 0 <= i < |attributes| && IsLastOccurrence(attributes, attributes[i].0, i) ::
      Overlay(map[], attributes)[attributes[i].0] == attributes[i].1
  {
    OverlayKeys(map[], attributes);
    forall i | 0 <= i < |attributes| && IsLastOccurrence(attributes, attributes[i].0, i)
      ensures Overlay(map[], attributes)[attributes[i].0] == attributes[i].1
    {
      OverlayLastWins(map[], attributes, attributes[i].0, i);
    }
  }

  /** When no name repeats (a PHP array's keys never do), every pair ends up in
      the result as written, whatever the starting map held under that name. */
  lemma {:induction false} DistinctPairsAllWritten<V>(m: map<string, V>, pairs: seq<(string, V)>)
    requires forall i, j :: 0 <= i < j < |pairs| ==> pairs[i].0 != pairs[j].0
    ensures forall i | 0 <= i < |pairs| ::
      pairs[i].0 in Overlay(m, pairs) && Overlay(m, pairs)[pairs[i].0] == pairs[i].1
  {
    forall i | 0 <= i < |pairs|
      ensures pairs[i].0 in Overlay(m, pairs) && Overlay(m, pairs)[pairs[i].0] == pairs[i].1
    {
      OverlayLastWins(m, pairs, pairs[i].0, i);
    }
  }
}

/**
 * The per-agent phrase accumulator, `defaultdict(list)` keyed by agent
 * position. A Python dict remembers the order in which its keys were first
 * inserted, and `values()` follows that order, so the table keeps it too.
 */
module Phrases {
  import opened Wrappers

  datatype PhraseTable = PhraseTable(order: seq<int>, lists: map<int, seq<string>>)
  {
    /** Each key appears once in the insertion order, and exactly the keys of the map appear. */
    ghost predicate Valid() {
      && (forall i, j :: 0 <= i < j < |order| ==> order[i] != order[j])
      && (forall k :: k in lists <==> k in order)
    }

    /** `table[id]` of a defaultdict, read without side effect: a missing key reads as []. */
    function Lookup(id: int): seq<string> {
      if id in lists then lists[id] else []
    }

    /**
     * `table[id].extend(phrases)`: the subscript inserts a missing key with an
     * empty list, then the phrases are appended at its end.
     */
    function Extend(id: int, phrases: seq<string>): PhraseTable
    {
      PhraseTable(if id in order then order else order + [id], lists[id := Lookup(id) + phrases])
    }

    /** `table.values()`, in key insertion order. */
    function Values(): seq<seq<string>>
    {
      seq(|order|, i requires 0 <= i < |order| => Lookup(order[i]))
    }
  }

  const Empty := PhraseTable([], map[])

  /**
   * Extending appends the phrases, in order, to the end of id's list, leaves
   * every other list as it was, inserts id as the last key if it was missing,
   * and keeps the table well formed.
   */
  lemma ExtendSpec(t: PhraseTable, id: int, phrases: seq<string>)
    ensures var r := t.Extend(id, phrases);
      && r.Lookup(id) == t.Lookup(id) + phrases
      && (forall k :: k != id ==> r.Lookup(k) == t.Lookup(k))
      && r.order == (if id in t.order then t.order else t.order + [id])
      && id in r.order && t.order <= r.order
      && (t.Valid() ==> r.Valid())
  {
  }

  /** The same, one key at a time. */
  lemma ExtendLookup(t: PhraseTable, id: int, phrases: seq<string>, k: int)
    ensures t.Extend(id, phrases).Lookup(k) == t.Lookup(k) + (if k == id then phrases else [])
  {
    ExtendSpec(t, id, phrases);
  }

  /** `[point for points in values for point in points]`. */
  function Flatten(vs: seq<seq<string>>): seq<string>
  {
    if vs == [] then [] else vs[0] + Flatten(vs[1..])
  }

  /**
   * The length of the shortest list, which is what `min(values, key=len)`
   * contributes; `min` of no values raises, which is `None` here.
   */
  function MinLength(vs: seq<seq<string>>): (r: Option<nat>)
    ensures r.None? <==> vs == []
  {
    if vs == [] then None
    else match MinLength(vs[1..])
      case None => Some(|vs[0]|)
      case Some(m) => Some(if |vs[0]| <= m then |vs[0]| else m)
  }

  /** The length found is one of the lists' lengths, and no list is shorter. */
  lemma {:induction false} MinLengthIsShortest(vs: seq<seq<string>>)
    requires vs != []
    ensures exists i :: 0 <= i < |vs| && |vs[i]| == MinLength(vs).value
    ensures forall i :: 0 <= i < |vs| ==> MinLength(vs).value <= |vs[i]|
  {
    var rest := vs[1..];
    if rest == [] {
      assert MinLength(vs) == Some(|vs[0]|);
    } else {
      MinLengthIsShortest(rest);
      var m := MinLength(rest).value;
      var r := if |vs[0]| <= m then |vs[0]| else m;
      assert MinLength(vs) == Some(r);
      var j :| 0 <= j < |rest| && |rest[j]| == m;
      assert rest[j] == vs[j + 1];
      forall i | 0 <= i < |vs| ensures r <= |vs[i]| {
        if i > 0 {
          assert vs[i] == rest[i - 1];
        }
      }
      if |vs[0]| > m {
        assert |vs[j + 1]| == r;
      } else {
        assert |vs[0]| == r;
      }
    }
  }
}

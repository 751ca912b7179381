/** The `squares` dictionary the board builders fill: a map from a square key
    to the list of tokens pushed onto it, in push order. */
module Squares {

  /** One push: the token `item` goes onto the square `key`; `owner` is the
      index of the player it belongs to. */
  datatype Entry<K, V> = Entry(key: K, item: V, owner: nat)

  /** `squares[key] = squares[key] || [...]; squares[key].push(item)` */
  function Push<K(==), V>(m: map<K, seq<V>>, e: Entry<K, V>): map<K, seq<V>> {
    m[e.key := (if e.key in m then m[e.key] else []) + [e.item]]
  }

  /** A push creates the square when absent, appends the token to its list and
      leaves every other square as it was. */
  lemma PushEffect<K, V>(m: map<K, seq<V>>, e: Entry<K, V>)
    ensures Push(m, e).Keys == m.Keys + {e.key}
    ensures Push(m, e)[e.key] == (if e.key in m then m[e.key] else []) + [e.item]
    ensures forall k :: k in m && k != e.key ==> Push(m, e)[k] == m[k]
  {
  }

  /** The dictionary after pushing the entries in order, starting empty. */
  function Group<K(==), V>(es: seq<Entry<K, V>>): map<K, seq<V>>
    decreases |es|
  {
    if |es| == 0 then map[] else Push(Group(es[..|es| - 1]), es[|es| - 1])
  }

  /** No square is ever created empty: a square appears with the push that
      puts its first token on it. */
  lemma {:induction false} GroupNonEmpty<K, V>(es: seq<Entry<K, V>>)
    ensures forall k :: k in Group(es) ==> |Group(es)[k]| > 0
  {
    if |es| > 0 {
      GroupNonEmpty(es[..|es| - 1]);
    }
  }

  lemma GroupSnoc<K, V>(es: seq<Entry<K, V>>, e: Entry<K, V>)
    ensures Group(es + [e]) == Push(Group(es), e)
  {
    assert (es + [e])[..|es|] == es;
  }

  /** A square is present exactly when some push targeted it, and a token is
      listed on a square exactly when some push put it there. */
  lemma {:induction false} GroupMembers<K, V>(es: seq<Entry<K, V>>, key: K, v: V)
    ensures key in Group(es) <==> exists k :: 0 <= k < |es| && es[k].key == key
    ensures (key in Group(es) && v in Group(es)[key]) <==>
              exists k :: 0 <= k < |es| && es[k].key == key && es[k].item == v
  {
    if |es| > 0 {
      var init := es[..|es| - 1];
      var last := es[|es| - 1];
      GroupMembers(init, key, v);
      var m := Group(init);
      assert Group(es) == Push(m, last);
      if key in Group(es) && v in Group(es)[key] {
        if key == last.key && v == last.item {
          assert es[|es| - 1].key == key && es[|es| - 1].item == v;
        } else {
          assert key in m && v in m[key];
          var k :| 0 <= k < |init| && init[k].key == key && init[k].item == v;
          assert es[k] == init[k];
        }
      }
      if exists k :: 0 <= k < |es| && es[k].key == key && es[k].item == v {
        var k :| 0 <= k < |es| && es[k].key == key && es[k].item == v;
        if k < |es| - 1 {
          assert init[k] == es[k];
          assert v in m[key];
        }
      }
      if exists k :: 0 <= k < |es| && es[k].key == key {
        var k :| 0 <= k < |es| && es[k].key == key;
        if k < |es| - 1 {
          assert init[k] == es[k];
        }
      }
      if key in Group(es) && key != last.key {
        var k :| 0 <= k < |init| && init[k].key == key;
        assert es[k] == init[k];
      }
    }
  }
}

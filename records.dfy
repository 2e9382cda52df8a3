/** The three collections the pages read (`devices`, `users`, `payments`):
    one datatype per record, and `Object.values` over a keyed table.

    A field that a stored record may lack is an `Option`; comparing two such
    fields with `===` is equality of the options (two missing fields are equal,
    as `undefined === undefined` is). */
module Records {
  import opened Wrappers
  import opened Seqs

  datatype Device = Device(
    code: Option<string>,
    model: Option<string>,
    manufacturer: Option<string>,
    status: Option<string>,
    createdAt: Option<int>,
    updatedAt: Option<int>)

  datatype User = User(
    username: Option<string>,
    password: Option<string>,
    deviceCode: Option<string>,
    role: Option<string>,
    createdAt: Option<int>)

  /** `amount` is the value `parseFloat` reads from the stored amount, in
      cents; `None` where it reads no number. */
  datatype Payment = Payment(
    deviceCode: Option<string>,
    sender: Option<string>,
    amount: Option<int>,
    content: Option<string>,
    timestamp: Option<int>)

  /** A table as the pages hold it: `snap.val() || {}`. */
  function Snapshot<V>(val: Option<map<string, V>>): (m: map<string, V>)
    ensures val.None? ==> m == map[]
    ensures val.Some? ==> m == val.value
  {
    val.GetOr(map[])
  }

  /** `ref.child(key).remove()`, as the page's copy of the table sees it:
      that key goes and every other entry stays as it was. */
  function RemoveKey<V>(m: map<string, V>, key: string): (r: map<string, V>)
    ensures r.Keys == m.Keys - {key}
    ensures forall k | k in r :: r[k] == m[k]
  {
    m - {key}
  }

  /** JavaScript truthiness of a string field: present and not empty. */
  predicate Truthy(s: Option<string>) {
    s.Some? && s.value != ""
  }

  /** `order` lists every key of `m` once: the order in which the store's
      object enumerates its keys, which `Object.values` follows. */
  predicate Enumerates<V>(order: seq<string>, m: map<string, V>) {
    && (forall i, j :: 0 <= i < j < |order| ==> order[i] != order[j])
    && (forall k | k in m :: k in order)
    && (forall k | k in order :: k in m)
  }

  /** `Object.values(m)`, enumerating the keys in `order`. */
  function Values<V>(m: map<string, V>, order: seq<string>): (vs: seq<V>)
    requires forall k :: k in order ==> k in m
    ensures |vs| == |order|
    ensures forall i :: 0 <= i < |order| ==> vs[i] == m[order[i]]
  {
    if order == [] then [] else [m[order[0]]] + Values(m, order[1..])
  }

  /** `Object.values` yields exactly the values stored in the table. */
  lemma ValuesMembers<V>(m: map<string, V>, order: seq<string>)
    requires Enumerates(order, m)
    ensures forall v | v in Values(m, order) :: v in m.Values
    ensures forall v | v in m.Values :: v in Values(m, order)
  {
    var vs := Values(m, order);
    forall v | v in m.Values ensures v in vs {
      var k :| k in m && m[k] == v;
      var i :| 0 <= i < |order| && order[i] == k;
      assert vs[i] == v;
    }
  }

  /** Dropping a key the enumeration does not reach leaves its values alone. */
  lemma {:induction false} ValuesWithout<V>(m: map<string, V>, order: seq<string>, k: string)
    requires forall i :: 0 <= i < |order| ==> order[i] in m && order[i] != k
    ensures Values(m - {k}, order) == Values(m, order)
  {
    if order != [] {
      ValuesWithout(m, order[1..], k);
    }
  }

  /** The enumeration of `m` without its first key enumerates `m` without that key. */
  lemma EnumeratesRest<V>(m: map<string, V>, order: seq<string>)
    requires Enumerates(order, m) && order != []
    ensures Enumerates(order[1..], m - {order[0]})
    ensures forall i :: 0 <= i < |order| - 1 ==> order[1..][i] in m && order[1..][i] != order[0]
  {
    var rest := order[1..];
    forall i | 0 <= i < |rest| ensures rest[i] in m && rest[i] != order[0] {
      assert rest[i] == order[i + 1];
    }
    forall j | j in m - {order[0]} ensures j in rest {
      var i :| 0 <= i < |order| && order[i] == j;
      assert rest[i - 1] == j;
    }
  }

  /** The keys whose value passes `P`. */
  function KeysWhere<V>(m: map<string, V>, P: V -> bool): set<string> {
    set k | k in m && P(m[k])
  }

  /** Counting the keys whose value passes `P`, one key at a time. */
  lemma SplitMatchingKeys<V>(m: map<string, V>, k0: string, P: V -> bool)
    requires k0 in m
    ensures |KeysWhere(m, P)| == |KeysWhere(m - {k0}, P)| + (if P(m[k0]) then 1 else 0)
  {
    var m' := m - {k0};
    var matching := KeysWhere(m, P);
    var matching' := KeysWhere(m', P);
    var extra: set<string> := if P(m[k0]) then {k0} else {};
    assert matching == matching' + extra;
    assert k0 !in matching';
  }

  /** The number of values `Object.values` yields that pass `P` is the number
      of keys whose value passes `P`. */
  lemma {:induction false} CountMatching<V>(m: map<string, V>, order: seq<string>, P: V -> bool)
    requires Enumerates(order, m)
    ensures |Filter(Values(m, order), P)| == |KeysWhere(m, P)|
    decreases |order|
  {
    if order == [] {
      assert KeysWhere(m, P) == {};
    } else {
      var k0, rest := order[0], order[1..];
      var m' := m - {k0};
      EnumeratesRest(m, order);
      ValuesWithout(m, rest, k0);
      CountMatching(m', rest, P);
      var head, tail := [m[k0]], Values(m, rest);
      assert Values(m, order) == head + tail;
      FilterConcat(head, tail, P);
      assert |Filter(head, P)| == if P(m[k0]) then 1 else 0 by {
        assert head[..0] == [];
      }
      SplitMatchingKeys(m, k0, P);
    }
  }

  /** An enumeration lists as many keys as the table holds. */
  lemma {:induction false} EnumeratesSize<V>(m: map<string, V>, order: seq<string>)
    requires Enumerates(order, m)
    ensures |order| == |m|
    decreases |order|
  {
    if order == [] {
      assert m.Keys == {};
    } else {
      EnumeratesRest(m, order);
      EnumeratesSize(m - {order[0]}, order[1..]);
      assert (m - {order[0]}).Keys == m.Keys - {order[0]};
    }
  }
}

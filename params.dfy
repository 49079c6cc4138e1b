/**
 * The local `params` dictionaries the resource methods fill before encoding
 * them: which keys they hold, and the two ways extra keys arrive
 * (`params.update(...)` from a set of pairs, and the iteration over a
 * keyword-argument dictionary that unpacks each KEY into two characters).
 */
module Params {
  import opened Py

  /** A parameter dictionary: key to the text urlencode writes for its value. */
  type Params = map<string, string>

  /** Key `key` is present exactly when `v` is truthy, and then holds str(v). */
  ghost predicate Optional(p: Params, key: string, v: Val)
  {
    (key in p <==> Truthy(v)) && (key in p ==> p[key] == Str(v))
  }

  /** Key `key` is present and holds `s`. */
  ghost predicate Holds(p: Params, key: string, s: string)
  {
    key in p && p[key] == s
  }

  predicate StartsWith(s: string, prefix: string)
  {
    |prefix| <= |s| && s[..|prefix|] == prefix
  }

  /** The keys named by a set of (key, value) pairs. */
  function Firsts(s: set<(string, string)>): set<string>
  {
    set e | e in s :: e.0
  }

  /** Every pair's key is in `p`, holding the value of some pair with that key. */
  ghost predicate Includes(p: Params, s: set<(string, string)>)
  {
    forall e :: e in s ==> e.0 in p && (e.0, p[e.0]) in s
  }

  /** `{(prefix + k, v) for (k, v) in pairs}` over positional (k, v) tuples. */
  function Prefixed(prefix: string, pairs: seq<(string, string)>): (r: set<(string, string)>)
    ensures forall e :: e in r ==> StartsWith(e.0, prefix)
    ensures forall i :: 0 <= i < |pairs| ==> (prefix + pairs[i].0, pairs[i].1) in r
  {
    set p | p in pairs :: (prefix + p.0, p.1)
  }

  /**
   * `{(prefix + k, v) for (k, v) in kwargs}`: iterating a dictionary yields
   * its KEYS, so a two-character key "ab" becomes the pair (prefix + "a", "b")
   * and the values are never read.
   */
  function KeyPairs(prefix: string, keys: set<string>): (r: set<(string, string)>)
    ensures forall e :: e in r ==> StartsWith(e.0, prefix) && |e.0| == |prefix| + 1 && |e.1| == 1
  {
    set k | k in keys && |k| == 2 :: (prefix + [k[0]], [k[1]])
  }

  /**
   * `p.update(s)` for a set of pairs.  A set has no order, so when two pairs
   * share a key either value may win; the contract says only that the value
   * kept belongs to one of them.
   */
  method Update(p: Params, s: set<(string, string)>) returns (r: Params)
    ensures r.Keys == p.Keys + Firsts(s)
    ensures Includes(r, s)
    ensures forall k :: k in p && k !in Firsts(s) ==> r[k] == p[k]
  {
    r := p;
    var todo := s;
    while todo != {}
      invariant todo <= s
      invariant r.Keys == p.Keys + Firsts(s - todo)
      invariant Includes(r, s - todo)
      invariant forall k :: k in r && k in Firsts(s - todo) ==> (k, r[k]) in s
      invariant forall k :: k in p && k !in Firsts(s - todo) ==> r[k] == p[k]
      decreases todo
    {
      var e :| e in todo;
      assert Firsts(s - (todo - {e})) == Firsts(s - todo) + {e.0};
      r := r[e.0 := e.1];
      todo := todo - {e};
    }
    assert s - todo == s;
  }

  /** Updating with nothing adds no key and includes every pair of the empty set. */
  lemma NothingAdded(p: Params, s: set<(string, string)>)
    requires s == {}
    ensures p.Keys == p.Keys + Firsts(s) && Includes(p, s)
  {
    assert Firsts(s) == {};
  }

  /** Pairs included before an update with other keys stay included after it. */
  lemma IncludesAfterUpdate(p: Params, r: Params, s0: set<(string, string)>, s: set<(string, string)>)
    requires Includes(p, s0)
    requires r.Keys == p.Keys + Firsts(s)
    requires forall k :: k in p && k !in Firsts(s) ==> r[k] == p[k]
    requires forall k :: k in Firsts(s0) ==> k !in Firsts(s)
    ensures Includes(r, s0)
  {
    forall e | e in s0 ensures e.0 in r && (e.0, r[e.0]) in s0 {
      assert e.0 in Firsts(s0);
    }
  }

  /** Two updates in a row add the keys of both. */
  lemma KeysAdded(p: Params, m: Params, r: Params, a: set<string>, b: set<string>)
    requires m.Keys == p.Keys + a && r.Keys == m.Keys + b
    ensures r.Keys == p.Keys + (a + b)
  {
  }

  /** Two updates in a row leave alone every key neither of them adds. */
  lemma KeptOutside(p: Params, m: Params, r: Params, a: set<string>, b: set<string>)
    requires m.Keys == p.Keys + a
    requires forall k :: k in p && k !in a ==> m[k] == p[k]
    requires forall k :: k in m && k !in b ==> k in r && r[k] == m[k]
    ensures forall k :: k in p && k !in a + b ==> r[k] == p[k]
  {
  }

  /** Python 2.7's message when a string of length n != 2 is unpacked into two names. */
  function UnpackMessage(n: nat): string
  {
    if n > 2 then "too many values to unpack"
    else "need more than " + NatToDecimal(n) + (if n == 1 then " value" else " values") + " to unpack"
  }

  /**
   * Builds `{(prefix + k, v) for (k, v) in kw}`.  Each key must have exactly
   * two characters; the first key met that does not raises ValueError.
   */
  method UnpackKeys(prefix: string, kw: map<string, Val>) returns (r: Result<set<(string, string)>, Exc>)
    ensures r.Failure? <==> exists k :: k in kw && |k| != 2
    ensures r.Failure? ==> exists k :: k in kw && |k| != 2 && r.error == ValueError(UnpackMessage(|k|))
    ensures r.Success? ==> r.value == KeyPairs(prefix, kw.Keys)
  {
    var todo := kw.Keys;
    var acc: set<(string, string)> := {};
    while todo != {}
      invariant todo <= kw.Keys
      invariant forall k :: k in kw.Keys - todo ==> |k| == 2
      invariant acc == KeyPairs(prefix, kw.Keys - todo)
      decreases todo
    {
      var k :| k in todo;
      if |k| != 2 {
        return Failure(ValueError(UnpackMessage(|k|)));
      }
      acc := acc + {(prefix + [k[0]], [k[1]])};
      todo := todo - {k};
    }
    assert kw.Keys - todo == kw.Keys;
    return Success(acc);
  }
  /**
   * One assignment `params[key] = value` of a resource method, with whether
   * it happens for the arguments given (its guard; `true` for an unguarded
   * one).  The dictionary then holds str(value), the text urlencode writes.
   */
  datatype Entry = Entry(key: string, sent: bool, value: Val)

  /** An unguarded `params[key] = v`. */
  function Always(key: string, v: Val): Entry
  {
    Entry(key, true, v)
  }

  /** `if v: params[key] = v`. */
  function IfSet(key: string, v: Val): Entry
  {
    Entry(key, Truthy(v), v)
  }

  /** The dictionary after performing the assignment `e` on `p`. */
  function Put(p: Params, e: Entry): Params
  {
    if e.sent then p[e.key := Str(e.value)] else p
  }

  /** The dictionary after performing the assignments `es` on `p`, in order. */
  function Fill(p: Params, es: seq<Entry>): Params
    decreases |es|
  {
    if es == [] then p else Put(Fill(p, es[..|es| - 1]), es[|es| - 1])
  }

  /** The keys of the assignments that happen. */
  function SentKeys(es: seq<Entry>): set<string>
  {
    set e | e in es && e.sent :: e.key
  }

  /** No two assignments name the same key. */
  predicate Distinct(es: seq<Entry>)
  {
    forall i, j :: 0 <= i < j < |es| ==> es[i].key != es[j].key
  }

  /** `p` reflects the assignment `e`: the key is present exactly when it was assigned, holding str() of the value. */
  ghost predicate Carries(p: Params, e: Entry)
  {
    (e.key in p <==> e.sent) && (e.key in p ==> p[e.key] == Str(e.value))
  }

  /**
   * Assignments to distinct keys that `p` does not hold yet each leave their
   * mark, add exactly the keys they assign, and change nothing else.
   */
  lemma {:induction false} FillCarries(p: Params, es: seq<Entry>)
    requires Distinct(es)
    requires forall e :: e in es ==> e.key !in p
    ensures forall e :: e in es ==> Carries(Fill(p, es), e)
    ensures Fill(p, es).Keys == p.Keys + SentKeys(es)
    ensures forall k :: k in p ==> Fill(p, es)[k] == p[k]
    decreases |es|
  {
    if es != [] {
      var init := es[..|es| - 1];
      var last := es[|es| - 1];
      assert forall e :: e in init ==> e in es;
      FillCarries(p, init);
      SentKeysLast(es);
      forall e | e in es ensures Carries(Fill(p, es), e) {
        if e != last {
          EarlierEntry(es, e);
        }
      }
    }
  }

  /** The keys assigned by a list are those of all but its last entry, plus the last one's if it is made. */
  lemma SentKeysLast(es: seq<Entry>)
    requires es != []
    ensures SentKeys(es) == SentKeys(es[..|es| - 1]) + (if es[|es| - 1].sent then {es[|es| - 1].key} else {})
  {
    assert es == es[..|es| - 1] + [es[|es| - 1]];
  }

  /** An entry other than the last belongs to the list without it and, keys being distinct, names another key. */
  lemma EarlierEntry(es: seq<Entry>, e: Entry)
    requires Distinct(es) && e in es && e != es[|es| - 1]
    ensures e in es[..|es| - 1] && e.key != es[|es| - 1].key
  {
    var i :| 0 <= i < |es| && es[i] == e;
    assert es[..|es| - 1][i] == e;
  }

  /** `p` holds exactly the keys `es` assigns, each with its text. */
  ghost predicate Reflects(p: Params, es: seq<Entry>)
  {
    (forall e :: e in es ==> Carries(p, e)) && p.Keys == SentKeys(es)
  }

  /** What a dictionary carrying every assignment of `es` says about the `i`-th. */
  lemma ReflectsAt(p: Params, es: seq<Entry>, i: int)
    requires (forall e :: e in es ==> Carries(p, e)) && 0 <= i < |es|
    ensures es[i].key in p <==> es[i].sent
    ensures es[i].sent ==> p[es[i].key] == Str(es[i].value)
  {
    assert es[i] in es;
  }

  /** A dictionary reflecting assignments none of which happens is empty. */
  lemma NothingSent(es: seq<Entry>, p: Params)
    requires Reflects(p, es)
    requires forall i :: 0 <= i < |es| ==> !es[i].sent
    ensures p == map[]
  {
    assert SentKeys(es) == {};
  }

  /** Assignments to distinct keys, starting from `{}`, give a dictionary reflecting them. */
  lemma FillReflects(es: seq<Entry>)
    requires Distinct(es)
    ensures Reflects(Fill(map[], es), es)
  {
    FillCarries(map[], es);
  }

  /** A key no assignment names is never assigned. */
  lemma Unassigned(es: seq<Entry>, k: string)
    requires forall i :: 0 <= i < |es| ==> es[i].key != k
    ensures k !in SentKeys(es)
  {
  }

  /** Performs the assignments `es` on `p` one after another. */
  method Assign(p: Params, es: seq<Entry>) returns (r: Params)
    ensures r == Fill(p, es)
  {
    r := p;
    var i := 0;
    while i < |es|
      invariant 0 <= i <= |es|
      invariant r == Fill(p, es[..i])
    {
      assert es[..i + 1][..i] == es[..i];
      r := Put(r, es[i]);
      i := i + 1;
    }
    assert es[..i] == es;
  }

  /**
   * `p` holds what `es` assigns, the pairs of `extra` (one value per key),
   * and nothing else.
   */
  ghost predicate Augmented(p: Params, es: seq<Entry>, extra: set<(string, string)>)
  {
    && (forall e :: e in es ==> Carries(p, e))
    && Includes(p, extra)
    && p.Keys == SentKeys(es) + Firsts(extra)
  }

  /** Assignments to keys `extra` does not name, followed by `p.update(extra)`, give an `Augmented` dictionary. */
  lemma FilledThenAugmented(es: seq<Entry>, r: Params, extra: set<(string, string)>)
    requires Distinct(es)
    requires forall i :: 0 <= i < |es| ==> es[i].key !in Firsts(extra)
    requires r.Keys == Fill(map[], es).Keys + Firsts(extra)
    requires Includes(r, extra)
    requires forall k :: k in Fill(map[], es) && k !in Firsts(extra) ==> r[k] == Fill(map[], es)[k]
    ensures Augmented(r, es, extra)
  {
    FillCarries(map[], es);
    forall e | e in es ensures Carries(r, e) {
      var i :| 0 <= i < |es| && es[i] == e;
    }
  }
}

/**
 * Python 2's `urllib.urlencode` over a parameter dictionary, with the inverse
 * a server applies to read the query back.
 *
 * Each pair is written `quote_plus(key) + "=" + quote_plus(value)` and pairs
 * are joined with `&`.  `quote_plus` keeps letters, digits and `_.-`, turns a
 * space into `+` and writes every other ASCII character as `%XX` (upper-case
 * hex, percent-encoding in the sense of section 2.1 of RFC 3986).  Python 2
 * dictionaries have no defined order, so the pairs may come in any order of
 * the keys; the encoder below is a method that picks keys arbitrarily, and
 * its contract names no order.
 */
module Query {
  import opened Py

  /** The characters `quote_plus` leaves as they are. */
  predicate AlwaysSafe(c: char)
  {
    ('a' <= c <= 'z') || ('A' <= c <= 'Z') || ('0' <= c <= '9') || c == '_' || c == '.' || c == '-'
  }

  function HexDigit(n: nat): (c: char)
    requires n < 16
    ensures IsHex(c) && HexValue(c) == n
  {
    if n < 10 then ('0' as int + n) as char else ('A' as int + n - 10) as char
  }

  predicate IsHex(c: char)
  {
    ('0' <= c <= '9') || ('A' <= c <= 'F') || ('a' <= c <= 'f')
  }

  function HexValue(c: char): (n: nat)
    requires IsHex(c)
    ensures n < 16
  {
    if '0' <= c <= '9' then c as int - '0' as int
    else if 'A' <= c <= 'F' then c as int - 'A' as int + 10
    else c as int - 'a' as int + 10
  }

  /**
   * `quote_plus` of one character.  Python 2 raises UnicodeEncodeError on a
   * character above 127; the model passes such a character through.
   */
  function QuoteChar(c: char): (r: string)
    ensures 1 <= |r| <= 3
    ensures '&' !in r && '=' !in r
  {
    if AlwaysSafe(c) || c as int >= 128 then [c]
    else if c == ' ' then "+"
    else ['%', HexDigit(c as int / 16), HexDigit(c as int % 16)]
  }

  /** `quote_plus(s)`: its output never holds a pair or field separator. */
  function QuotePlus(s: string): (r: string)
    ensures '&' !in r && '=' !in r
    ensures |s| <= |r| <= 3 * |s|
  {
    if s == [] then [] else QuoteChar(s[0]) + QuotePlus(s[1..])
  }

  /** `unquote_plus(s)`: `+` is a space, `%XX` a character, anything else itself. */
  function UnquotePlus(s: string): string
    decreases |s|
  {
    if s == [] then []
    else if s[0] == '+' then " " + UnquotePlus(s[1..])
    else if s[0] == '%' && |s| >= 3 && IsHex(s[1]) && IsHex(s[2]) then
      [(HexValue(s[1]) * 16 + HexValue(s[2])) as char] + UnquotePlus(s[3..])
    else [s[0]] + UnquotePlus(s[1..])
  }

  lemma UnquoteQuoteChar(c: char, t: string)
    ensures UnquotePlus(QuoteChar(c) + t) == [c] + UnquotePlus(t)
  {
    var q := QuoteChar(c) + t;
    if AlwaysSafe(c) || c as int >= 128 {
      assert q[1..] == t;
    } else if c == ' ' {
      assert q[1..] == t;
    } else {
      assert q[3..] == t;
      assert HexValue(q[1]) * 16 + HexValue(q[2]) == c as int;
    }
  }

  /** Unquoting undoes quoting, for every string. */
  lemma {:induction false} UnquoteQuote(s: string)
    ensures UnquotePlus(QuotePlus(s)) == s
  {
    if s != [] {
      UnquoteQuoteChar(s[0], QuotePlus(s[1..]));
      UnquoteQuote(s[1..]);
      assert [s[0]] + s[1..] == s;
    }
  }

  /** `s.split(sep)`: the pieces between separators, always at least one. */
  function Split(s: string, sep: char): (r: seq<string>)
    ensures |r| >= 1
    decreases |s|
  {
    if s == [] then [[]]
    else
      var rest := Split(s[1..], sep);
      if s[0] == sep then [[]] + rest else [[s[0]] + rest[0]] + rest[1..]
  }

  /** `sep.join(parts)`. */
  function Join(parts: seq<string>, sep: char): (r: string)
    ensures |parts| >= 1 ==> |r| >= |parts[0]| && r[..|parts[0]|] == parts[0]
  {
    if |parts| == 0 then [] else if |parts| == 1 then parts[0] else parts[0] + [sep] + Join(parts[1..], sep)
  }

  lemma JoinCons(p: string, parts: seq<string>, sep: char)
    ensures Join([p] + parts, sep) == if parts == [] then p else p + [sep] + Join(parts, sep)
  {
    assert ([p] + parts)[1..] == parts;
  }

  lemma {:induction false} SplitNoSep(a: string, sep: char)
    requires sep !in a
    ensures Split(a, sep) == [a]
  {
    if a != [] {
      SplitNoSep(a[1..], sep);
      assert [a[0]] + a[1..] == a;
    }
  }

  lemma {:induction false} SplitAfter(a: string, b: string, sep: char)
    requires sep !in a
    ensures Split(a + [sep] + b, sep) == [a] + Split(b, sep)
  {
    if a == [] {
      assert a + [sep] + b == [sep] + b;
      assert ([sep] + b)[1..] == b;
    } else {
      var s := a + [sep] + b;
      assert s[1..] == a[1..] + [sep] + b;
      SplitAfter(a[1..], b, sep);
      assert [a[0]] + a[1..] == a;
    }
  }

  /** Splitting a join gives the parts back when no part holds the separator. */
  lemma {:induction false} SplitJoin(parts: seq<string>, sep: char)
    requires |parts| >= 1
    requires forall i :: 0 <= i < |parts| ==> sep !in parts[i]
    ensures Split(Join(parts, sep), sep) == parts
  {
    if |parts| == 1 {
      SplitNoSep(parts[0], sep);
    } else {
      SplitJoin(parts[1..], sep);
      SplitAfter(parts[0], Join(parts[1..], sep), sep);
      assert [parts[0]] + parts[1..] == parts;
    }
  }

  /** One `key=value` pair as urlencode writes it. */
  function Pair(k: string, v: string): string
  {
    QuotePlus(k) + "=" + QuotePlus(v)
  }

  function Pairs(ks: seq<string>, m: map<string, string>): (r: seq<string>)
    requires forall i :: 0 <= i < |ks| ==> ks[i] in m
    ensures |r| == |ks|
    ensures forall i :: 0 <= i < |ks| ==> r[i] == Pair(ks[i], m[ks[i]])
  {
    if ks == [] then [] else [Pair(ks[0], m[ks[0]])] + Pairs(ks[1..], m)
  }

  /** urlencode's output when it visits the keys in the order `ks`. */
  function EncodePairs(ks: seq<string>, m: map<string, string>): string
    requires forall i :: 0 <= i < |ks| ==> ks[i] in m
  {
    Join(Pairs(ks, m), '&')
  }

  /** `ks` lists every key of the set exactly once. */
  ghost predicate IsOrderOf(ks: seq<string>, keys: set<string>)
  {
    && (forall i, j :: 0 <= i < j < |ks| ==> ks[i] != ks[j])
    && (forall k :: k in ks <==> k in keys)
  }

  /** The same, stated one key at a time. */
  ghost predicate Enumerates(ks: seq<string>, keys: set<string>)
    decreases |ks|
  {
    if ks == [] then keys == {} else ks[0] in keys && Enumerates(ks[1..], keys - {ks[0]})
  }

  lemma {:induction false} EnumeratesOrder(ks: seq<string>, keys: set<string>)
    ensures Enumerates(ks, keys) <==> IsOrderOf(ks, keys)
    decreases |ks|
  {
    if ks == [] {
      if IsOrderOf(ks, keys) {
        assert forall k :: k !in keys;
      }
    } else {
      var rest := keys - {ks[0]};
      EnumeratesOrder(ks[1..], rest);
      assert ks == [ks[0]] + ks[1..];
      assert forall k :: k in ks <==> k == ks[0] || k in ks[1..];
      if IsOrderOf(ks, keys) {
        forall k | k in rest ensures k in ks[1..] {
          var i :| 0 <= i < |ks| && ks[i] == k;
          assert i != 0;
          assert ks[1..][i - 1] == k;
        }
        forall i, j | 0 <= i < j < |ks[1..]| ensures ks[1..][i] != ks[1..][j] {
          assert ks[1..][i] == ks[i + 1] && ks[1..][j] == ks[j + 1];
        }
        assert forall k :: k in ks[1..] ==> k != ks[0] by {
          forall k | k in ks[1..] ensures k != ks[0] {
            var i :| 0 <= i < |ks[1..]| && ks[1..][i] == k;
            assert ks[i + 1] == k;
          }
        }
        assert IsOrderOf(ks[1..], rest);
      }
      if Enumerates(ks, keys) {
        assert IsOrderOf(ks[1..], rest);
        forall i, j | 0 <= i < j < |ks| ensures ks[i] != ks[j] {
          if i == 0 {
            assert ks[j] == ks[1..][j - 1];
            assert ks[j] in rest;
          } else {
            assert ks[i] == ks[1..][i - 1] && ks[j] == ks[1..][j - 1];
          }
        }
      }
    }
  }

  /**
   * `q` is what urlencode may return for `m`, in one of the possible key
   * orders.  (The order is stated key by key, which keeps the fact cheap to
   * carry through proofs about the dictionary.)
   */
  ghost predicate IsEncodingOf(q: string, m: map<string, string>)
  {
    exists ks ::
      && Enumerates(ks, m.Keys)
      && (forall i :: 0 <= i < |ks| ==> ks[i] in m)
      && q == EncodePairs(ks, m)
  }

  /** `uri` is `prefix` immediately followed by an urlencoding of `p`. */
  ghost predicate Encodes(uri: string, prefix: string, p: map<string, string>)
  {
    |prefix| <= |uri| && uri[..|prefix|] == prefix && IsEncodingOf(uri[|prefix|..], p)
  }

  /** Reading one `key=value` piece. */
  function ParsePair(piece: string): Option<(string, string)>
  {
    var xs := Split(piece, '=');
    if |xs| == 2 then Some((UnquotePlus(xs[0]), UnquotePlus(xs[1]))) else None
  }

  function ParsePairs(pieces: seq<string>): Option<map<string, string>>
  {
    if pieces == [] then Some(map[])
    else
      match (ParsePair(pieces[0]), ParsePairs(pieces[1..]))
      case (Some(kv), Some(rest)) => Some(rest[kv.0 := kv.1])
      case _ => None
  }

  /** The server's reading of a query string: the parameter dictionary it names. */
  function ParseQuery(q: string): Option<map<string, string>>
  {
    if q == "" then Some(map[]) else ParsePairs(Split(q, '&'))
  }

  lemma ParsePairOfPair(k: string, v: string)
    ensures ParsePair(Pair(k, v)) == Some((k, v))
  {
    assert Pair(k, v) == QuotePlus(k) + ['='] + QuotePlus(v);
    SplitAfter(QuotePlus(k), QuotePlus(v), '=');
    SplitNoSep(QuotePlus(v), '=');
    UnquoteQuote(k);
    UnquoteQuote(v);
  }

  /** The dictionary holding the keys `ks` with their values in `m`. */
  function Restrict(ks: seq<string>, m: map<string, string>): map<string, string>
    requires forall i :: 0 <= i < |ks| ==> ks[i] in m
  {
    if ks == [] then map[] else Restrict(ks[1..], m)[ks[0] := m[ks[0]]]
  }

  lemma {:induction false} RestrictAll(ks: seq<string>, m: map<string, string>)
    requires forall i :: 0 <= i < |ks| ==> ks[i] in m
    ensures forall k :: k in Restrict(ks, m) <==> k in ks
    ensures forall k :: k in Restrict(ks, m) ==> Restrict(ks, m)[k] == m[k]
  {
    if ks != [] {
      RestrictAll(ks[1..], m);
      assert forall k :: k in ks <==> k == ks[0] || k in ks[1..] by {
        assert ks == [ks[0]] + ks[1..];
      }
    }
  }

  lemma {:induction false} ParsePairsOfPairs(ks: seq<string>, m: map<string, string>)
    requires forall i :: 0 <= i < |ks| ==> ks[i] in m
    ensures ParsePairs(Pairs(ks, m)) == Some(Restrict(ks, m))
  {
    if ks != [] {
      var ps := Pairs(ks, m);
      assert ps[1..] == Pairs(ks[1..], m);
      ParsePairOfPair(ks[0], m[ks[0]]);
      ParsePairsOfPairs(ks[1..], m);
    }
  }

  /** Every urlencoding of a dictionary reads back as that dictionary. */
  lemma ParseEncoding(q: string, m: map<string, string>)
    requires IsEncodingOf(q, m)
    ensures ParseQuery(q) == Some(m)
  {
    var ks :| Enumerates(ks, m.Keys) && (forall i :: 0 <= i < |ks| ==> ks[i] in m) && q == EncodePairs(ks, m);
    EnumeratesOrder(ks, m.Keys);
    ParseOrdered(ks, m);
  }

  lemma ParseOrdered(ks: seq<string>, m: map<string, string>)
    requires IsOrderOf(ks, m.Keys)
    ensures ParseQuery(EncodePairs(ks, m)) == Some(m)
  {
    var q := EncodePairs(ks, m);
    var ps := Pairs(ks, m);
    if ks == [] {
      assert m.Keys == {};
    } else {
      assert |q| >= |ps[0]| > 0;
      SplitJoin(ps, '&');
      ParsePairsOfPairs(ks, m);
      RestrictAll(ks, m);
      assert Restrict(ks, m) == m;
    }
  }

  /** The query part of a URI built by `Encodes` reads back as the parameter dictionary. */
  lemma ParseEncoded(uri: string, prefix: string, p: map<string, string>)
    requires Encodes(uri, prefix, p)
    ensures ParseQuery(uri[|prefix|..]) == Some(p)
  {
    ParseEncoding(uri[|prefix|..], p);
  }

  /** An empty dictionary urlencodes to the empty string. */
  lemma EmptyEncoding(q: string)
    requires IsEncodingOf(q, map[])
    ensures q == ""
  {
    var m: map<string, string> := map[];
    var ks :| Enumerates(ks, m.Keys) && (forall i :: 0 <= i < |ks| ==> ks[i] in m) && q == EncodePairs(ks, m);
  }

  /** A one-entry dictionary has exactly one urlencoding. */
  lemma SingleEncoding(q: string, k: string, v: string)
    ensures IsEncodingOf(q, map[k := v]) <==> q == Pair(k, v)
  {
    var m := map[k := v];
    if IsEncodingOf(q, m) {
      var ks :| Enumerates(ks, m.Keys) && (forall i :: 0 <= i < |ks| ==> ks[i] in m) && q == EncodePairs(ks, m);
      EnumeratesOrder(ks, m.Keys);
      assert k in ks;
      assert forall i :: 0 <= i < |ks| ==> ks[i] in ks;
      assert ks == [k];
    }
    if q == Pair(k, v) {
      EnumeratesOrder([k], m.Keys);
      assert IsOrderOf([k], m.Keys) && q == EncodePairs([k], m);
    }
  }

  /** A non-empty dictionary's encoding starts with a key character or `=`, never with `&`. */
  lemma EncodingStart(q: string, m: map<string, string>)
    requires IsEncodingOf(q, m) && m != map[]
    ensures q != "" && q[0] != '&'
  {
    var ks :| Enumerates(ks, m.Keys) && (forall i :: 0 <= i < |ks| ==> ks[i] in m) && q == EncodePairs(ks, m);
    EnumeratesOrder(ks, m.Keys);
    var k :| k in m;
    assert k in ks;
    EncodeHead(ks, m);
  }

  /** Encoding in any order of at least one key starts with the first pair, so not with `&`. */
  lemma EncodeHead(ks: seq<string>, m: map<string, string>)
    requires |ks| >= 1 && forall i :: 0 <= i < |ks| ==> ks[i] in m
    ensures EncodePairs(ks, m) != "" && EncodePairs(ks, m)[0] != '&'
  {
    var ps := Pairs(ks, m);
    var first := QuotePlus(ks[0]);
    var p0 := first + "=" + QuotePlus(m[ks[0]]);
    assert ps[0] == p0;
    assert EncodePairs(ks, m)[..|p0|] == p0;
    if first == [] {
      assert p0[0] == '=';
    } else {
      assert p0[0] == first[0];
    }
  }

  /**
   * Parameters glued straight onto a URI (no `&` in between) run into its
   * last value: the character after the prefix is never a separator.
   */
  lemma NoSeparator(uri: string, prefix: string, p: map<string, string>)
    requires Encodes(uri, prefix, p) && p != map[]
    ensures |uri| > |prefix| && uri[|prefix|] != '&'
  {
    EncodingStart(uri[|prefix|..], p);
  }

  /** Encoding with one more key in front puts its pair, and an `&` if more follow, before the rest. */
  lemma EncodeCons(k: string, ks: seq<string>, m: map<string, string>)
    requires k in m && forall i :: 0 <= i < |ks| ==> ks[i] in m
    ensures forall i :: 0 <= i < |[k] + ks| ==> ([k] + ks)[i] in m
    ensures EncodePairs([k] + ks, m) ==
              if ks == [] then Pair(k, m[k]) else Pair(k, m[k]) + "&" + EncodePairs(ks, m)
  {
    assert Pairs([k] + ks, m) == [Pair(k, m[k])] + Pairs(ks, m);
    JoinCons(Pair(k, m[k]), Pairs(ks, m), '&');
  }

  /**
   * `urlencode(m)`: visits the keys in an order of its own choosing and
   * joins the encoded pairs with `&`.
   */
  method Urlencode(m: map<string, string>) returns (q: string)
    ensures IsEncodingOf(q, m)
  {
    var todo := m.Keys;
    var ks: seq<string> := [];
    q := "";
    while todo != {}
      invariant todo <= m.Keys
      invariant forall i :: 0 <= i < |ks| ==> ks[i] in m && ks[i] !in todo
      invariant forall k :: k in m.Keys - todo ==> k in ks
      invariant forall i, j :: 0 <= i < j < |ks| ==> ks[i] != ks[j]
      invariant q == EncodePairs(ks, m)
      decreases todo
    {
      var k :| k in todo;
      EncodeCons(k, ks, m);
      if ks == [] {
        q := Pair(k, m[k]);
      } else {
        q := Pair(k, m[k]) + "&" + q;
      }
      ks := [k] + ks;
      todo := todo - {k};
    }
    assert IsOrderOf(ks, m.Keys);
    EnumeratesOrder(ks, m.Keys);
  }
}

/** The slice of JavaScript's semantics that the client relies on: the values it
    handles (settings, payloads, response bodies), truthiness, property access,
    string conversion by `+`, `String.prototype.indexOf`, and the `search` part that
    Node's legacy `url.parse` extracts from a URL. */
module Js {

  datatype Option<T> = None | Some(value: T)

  datatype Result<T, E> = Success(value: T) | Failure(error: E)

  /** A JavaScript value as far as this client looks into it. Numbers and booleans
      do not occur in the modelled paths and are left out. */
  datatype Value = Undefined | Null | Str(s: string) | Obj(fields: map<string, Value>)

  /** `if (v)` */
  predicate Truthy(v: Value) {
    match v
    case Undefined => false
    case Null => false
    case Str(s) => s != ""
    case Obj(_) => true
  }

  /** `v.key`, for values that have properties (undefined when absent) */
  function Member(v: Value, key: string): Value {
    if v.Obj? && key in v.fields then v.fields[key] else Undefined
  }

  /** The string that `'' + v` produces */
  function ToText(v: Value): string {
    match v
    case Undefined => "undefined"
    case Null => "null"
    case Str(s) => s
    case Obj(_) => "[object Object]"
  }

  predicate OccursAt(s: string, x: string, k: int) {
    0 <= k && k + |x| <= |s| && s[k..k + |x|] == x
  }

  /** `s.indexOf(x) != -1` */
  predicate Contains(s: string, x: string) {
    exists k :: 0 <= k <= |s| && OccursAt(s, x, k)
  }

  /** Some element of `xs` occurs in `s` */
  predicate ContainsAny(s: string, xs: seq<string>) {
    exists i :: 0 <= i < |xs| && Contains(s, xs[i])
  }

  /** `s.indexOf(x)`: the first position at which `x` occurs in `s`, or -1 */
  method IndexOf(s: string, x: string) returns (i: int)
    ensures i == -1 <==> !Contains(s, x)
    ensures i != -1 ==> OccursAt(s, x, i) && forall j :: 0 <= j < i ==> !OccursAt(s, x, j)
  {
    var k := 0;
    while k + |x| <= |s|
      invariant 0 <= k
      invariant forall j :: 0 <= j < k ==> !OccursAt(s, x, j)
      decreases |s| - k
    {
      if s[k..k + |x|] == x {
        assert OccursAt(s, x, k);
        return k;
      }
      k := k + 1;
    }
    return -1;
  }

  /** `xs.indexOf(x)` on an array of strings: the first position holding exactly
      `x`, or -1 */
  method ElementIndex(xs: seq<string>, x: string) returns (i: int)
    ensures i == -1 <==> x !in xs
    ensures i != -1 ==> 0 <= i < |xs| && xs[i] == x && x !in xs[..i]
  {
    var k := 0;
    while k < |xs|
      invariant 0 <= k <= |xs|
      invariant x !in xs[..k]
    {
      if xs[k] == x {
        return k;
      }
      assert xs[..k + 1] == xs[..k] + [xs[k]];
      k := k + 1;
    }
    assert xs[..k] == xs;
    return -1;
  }

  /** The position of the first `c` in `s`, or `|s|` when `c` does not occur */
  function Find(s: string, c: char): (i: nat)
    ensures i <= |s|
    ensures i < |s| ==> s[i] == c
    ensures forall j :: 0 <= j < i ==> s[j] != c
  {
    if s == [] then 0
    else if s[0] == c then 0
    else 1 + Find(s[1..], c)
  }

  lemma FindAfter(a: string, c: char, b: string)
    requires c !in a
    ensures Find(a + [c] + b, c) == |a|
  {
    var s := a + [c] + b;
    assert s[|a|] == c;
    forall j | 0 <= j < |a| ensures s[j] != c {
      assert s[j] == a[j] && a[j] in a;
    }
  }

  lemma FindAbsent(s: string, c: char)
    requires c !in s
    ensures Find(s, c) == |s|
  {
    forall j | 0 <= j < |s| ensures s[j] != c {
      assert s[j] in s;
    }
  }

  /** `url.parse(u).search` of Node's legacy URL parser: from the first `?` that
      comes before any `#` up to the `#` (or the end); `null` when there is none. */
  function UrlSearch(u: string): Value {
    var h := Find(u, '#');
    var q := Find(u[..h], '?');
    if q < h then Str(u[q..h]) else Null
  }

  /** A URL made of a base without `?` or `#` and a query without `#` yields that
      query, question mark included, as its search part. */
  lemma {:induction false} SearchOfQuery(base: string, query: string)
    requires '?' !in base && '#' !in base && '#' !in query
    ensures UrlSearch(base + "?" + query) == Str("?" + query)
  {
    var u := base + "?" + query;
    assert '#' !in u by {
      forall i | 0 <= i < |u| ensures u[i] != '#' {
        if i < |base| {
          assert u[i] == base[i] && base[i] in base;
        } else if i > |base| {
          assert u[i] == query[i - |base| - 1] && query[i - |base| - 1] in query;
        }
      }
    }
    FindAbsent(u, '#');
    assert u[..|u|] == base + ['?'] + query;
    FindAfter(base, '?', query);
    assert u[|base|..|u|] == "?" + query;
  }
}

/** Optional values, used for the source's `T | undefined` and `T | null` fields. */
module Wrappers {
  datatype Option<+T> = None | Some(value: T)
}

/**
  The JavaScript values that flow through a workflow run: node inputs and
  outputs, node parameters and the payload given to a run. Numbers are
  integers here; see README for what that leaves out.
 */
module Json {
  import opened Wrappers

  datatype Json =
    | JUndefined
    | JNull
    | JBool(b: bool)
    | JNum(n: int)
    | JStr(s: string)
    | JArr(items: seq<Json>)
    | JObj(fields: map<string, Json>)
    | JDate(instant: int)        // a `new Date()` object; the instant is abstract

  const EmptyObject: Json := JObj(map[])

  /** JavaScript truthiness: `undefined`, `null`, `false`, `0` and `""` are falsy. */
  predicate Truthy(v: Json) {
    match v
    case JUndefined => false
    case JNull => false
    case JBool(b) => b
    case JNum(n) => n != 0
    case JStr(s) => s != ""
    case _ => true
  }

  /**
    The expression `v || fallback`. A truthy value is kept, and the result is
    truthy whenever the fallback is: every `x || {}` is truthy.
   */
  function Or(v: Json, fallback: Json): (r: Json)
    ensures Truthy(v) ==> r == v
    ensures Truthy(fallback) ==> Truthy(r)
  {
    if Truthy(v) then v else fallback
  }

  /** The character of decimal digit `d`. */
  function DigitChar(d: nat): (c: char)
    requires d < 10
    ensures c as int - '0' as int == d
  {
    ('0' as int + d) as char
  }

  /** Decimal form of a natural number, as `String(n)` writes it. */
  function NatToString(n: nat): (r: string)
    ensures |r| > 0
    decreases n
  {
    if n < 10 then [DigitChar(n)] else NatToString(n / 10) + [DigitChar(n % 10)]
  }

  /** Only a one-digit number has a one-character decimal form. */
  lemma NatToStringLength(n: nat)
    ensures n < 10 <==> |NatToString(n)| == 1
  {
    if n >= 10 { assert |NatToString(n)| == |NatToString(n / 10)| + 1; }
  }

  /** Different naturals have different decimal forms, and none of them is empty. */
  lemma {:induction false} NatToStringInjective(a: nat, b: nat)
    requires NatToString(a) == NatToString(b)
    ensures a == b
    decreases a
  {
    NatToStringLength(a);
    NatToStringLength(b);
    var sa, sb := NatToString(a), NatToString(b);
    if a < 10 && b < 10 {
      assert DigitChar(a) == sa[0] == sb[0] == DigitChar(b);
    } else if a >= 10 && b >= 10 {
      assert sa[..|sa| - 1] == NatToString(a / 10) && sb[..|sb| - 1] == NatToString(b / 10);
      assert DigitChar(a % 10) == sa[|sa| - 1] == sb[|sb| - 1] == DigitChar(b % 10);
      NatToStringInjective(a / 10, b / 10);
    } else {
      assert false;
    }
  }

  /** The index key of a new last element differs from every earlier index key. */
  lemma NewIndexKey(n: nat)
    ensures forall i: nat :: i < n ==> NatToString(i) != NatToString(n)
  {
    forall i: nat | i < n ensures NatToString(i) != NatToString(n) {
      if NatToString(i) == NatToString(n) { NatToStringInjective(i, n); }
    }
  }

  /** The index keys `"0"` … `String(n - 1)` of an array or string of length `n`. */
  ghost function IndexKeys(n: nat): set<string> {
    set i: nat | i < n :: NatToString(i)
  }

  lemma IndexKeysStep(n: nat)
    ensures IndexKeys(n + 1) == IndexKeys(n) + {NatToString(n)}
  {
    forall k | k in IndexKeys(n + 1) ensures k in IndexKeys(n) + {NatToString(n)} {
      var i: nat :| i < n + 1 && k == NatToString(i);
      if i < n { assert NatToString(i) in IndexKeys(n); }
    }
    forall k | k in IndexKeys(n) ensures k in IndexKeys(n + 1) {
      var i: nat :| i < n && k == NatToString(i);
      assert NatToString(i) in IndexKeys(n + 1);
    }
    assert NatToString(n) in IndexKeys(n + 1);
  }

  function IntToString(n: int): string {
    if n < 0 then "-" + NatToString(-n) else NatToString(n)
  }

  /** The own enumerable entries `{...xs}` takes from an array or a string: index keys. */
  function Indexed(xs: seq<Json>): map<string, Json>
    decreases |xs|
  {
    if xs == [] then map[]
    else Indexed(xs[..|xs| - 1])[NatToString(|xs| - 1) := xs[|xs| - 1]]
  }

  /** The index entries of `xs`: key `String(i)` holds element `i`, and there are no other keys. */
  lemma {:induction false} IndexedEntries(xs: seq<Json>)
    ensures Indexed(xs).Keys == IndexKeys(|xs|)
    ensures forall i: nat :: i < |xs| ==> Indexed(xs)[NatToString(i)] == xs[i]
    decreases |xs|
  {
    if xs != [] {
      var prefix := xs[..|xs| - 1];
      IndexedEntries(prefix);
      NewIndexKey(|xs| - 1);
      IndexKeysStep(|xs| - 1);
      assert forall i: nat :: i < |xs| - 1 ==> prefix[i] == xs[i];
    }
  }

  function Chars(s: string): seq<Json> {
    seq(|s|, i requires 0 <= i < |s| => JStr([s[i]]))
  }

  /**
    The entries an object spread `{...v}` copies from `v`: an object's own
    fields, the indices of an array or a string, and nothing for the
    primitives, `null`, `undefined` and a Date.
   */
  function Spread(v: Json): map<string, Json> {
    match v
    case JObj(m) => m
    case JArr(xs) => Indexed(xs)
    case JStr(s) => Indexed(Chars(s))
    case _ => map[]
  }

  /**
    What a spread copies: an object's own fields; for an array, key
    `String(i)` holding element `i`; for a string, key `String(i)` holding
    its `i`-th character; nothing for any other value.
   */
  lemma SpreadEntries(v: Json)
    ensures v.JObj? ==> Spread(v) == v.fields
    ensures v.JArr? ==> Spread(v).Keys == IndexKeys(|v.items|)
                        && forall i: nat :: i < |v.items| ==> Spread(v)[NatToString(i)] == v.items[i]
    ensures v.JStr? ==> Spread(v).Keys == IndexKeys(|v.s|)
                        && forall i: nat :: i < |v.s| ==> Spread(v)[NatToString(i)] == JStr([v.s[i]])
    ensures !(v.JObj? || v.JArr? || v.JStr?) ==> Spread(v) == map[]
  {
    match v
    case JArr(xs) => IndexedEntries(xs);
    case JStr(s) =>
      IndexedEntries(Chars(s));
      assert forall i: nat :: i < |s| ==> Chars(s)[i] == JStr([s[i]]);
    case _ =>
  }

  /** Property read `v.k` on a destructured parameter object; missing reads give `undefined`. */
  function Field(v: Json, k: string): Json {
    if v.JObj? && k in v.fields then v.fields[k] else JUndefined
  }

  function Join(parts: seq<string>, sep: string): string
    decreases |parts|
  {
    if parts == [] then ""
    else if |parts| == 1 then parts[0]
    else parts[0] + sep + Join(parts[1..], sep)
  }

  /**
    `String(v)` for a value used as a computed property key `[v]`, or `None`
    when that conversion throws. An object whose own `toString` field hides
    `Object.prototype.toString` leaves nothing callable that yields a
    primitive (`valueOf` gives the object back), so a TypeError is raised.
    Inside an array, `null` and `undefined` elements are written as empty
    strings and every other element is converted in turn.
   */
  function ToPropertyKey(v: Json): Option<string>
    decreases v, 1
  {
    match v
    case JUndefined => Some("undefined")
    case JNull => Some("null")
    case JBool(b) => Some(if b then "true" else "false")
    case JNum(n) => Some(IntToString(n))
    case JStr(s) => Some(s)
    case JArr(xs) =>
      var parts := ElementStrings(xs);
      if parts.Some? then Some(Join(parts.value, ",")) else None
    case JObj(fields) => if "toString" in fields then None else Some("[object Object]")
    case JDate(t) => Some(IntToString(t))
  }

  function ElementStrings(xs: seq<Json>): Option<seq<string>>
    decreases xs, 0
  {
    if xs == [] then Some([])
    else
      var head := if xs[0].JUndefined? || xs[0].JNull? then Some("") else ToPropertyKey(xs[0]);
      var rest := ElementStrings(xs[1..]);
      if head.Some? && rest.Some? then Some([head.value] + rest.value) else None
  }

  /** `v` is, or holds as an element of nested arrays, an object with its own `toString` field. */
  ghost predicate ShadowsToString(v: Json)
    decreases v
  {
    match v
    case JObj(fields) => "toString" in fields
    case JArr(xs) => exists i :: 0 <= i < |xs| && ShadowsToString(xs[i])
    case _ => false
  }

  /** Converting a key throws exactly when it is or holds an object that shadows `toString`. */
  lemma {:induction false} ToPropertyKeyThrows(v: Json)
    ensures ToPropertyKey(v).None? <==> ShadowsToString(v)
    decreases v, 1
  {
    if v.JArr? {
      ElementStringsThrow(v.items);
    }
  }

  lemma {:induction false} ElementStringsThrow(xs: seq<Json>)
    ensures ElementStrings(xs).None? <==> exists i :: 0 <= i < |xs| && ShadowsToString(xs[i])
    decreases xs, 0
  {
    if xs != [] {
      ToPropertyKeyThrows(xs[0]);
      ElementStringsThrow(xs[1..]);
      assert forall i :: 1 <= i < |xs| ==> xs[i] == xs[1..][i - 1];
    }
  }
}

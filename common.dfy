/** Values, errors and the handful of JavaScript string operations that the
    modelled browser code relies on (`trim`, `includes`, `startsWith`,
    `split`, `join`), stated over `string` = `seq<char>`. */
module Common {

  /** The error codes the application attaches to its `ApplicationError`s;
      `BuiltinTypeError` marks a `TypeError` raised by the JavaScript engine
      itself, which carries no application code. */
  datatype ErrorCode = InvalidState | InvalidParameter | NotFound | ExecutionError | BuiltinTypeError

  /** An `ApplicationError`: a message and a code. */
  datatype AppError = AppError(message: string, code: ErrorCode)

  /** The outcome of an operation that either returns a value or throws. */
  datatype Result<T> = Ok(value: T) | Err(error: AppError)

  /** The outcome of an operation that returns nothing or throws. */
  datatype Outcome = Done | Failed(error: AppError)

  /** The Option of the library idiom, for values that may be absent
      (`undefined` / `null` in the source). */
  datatype Option<T> = None | Some(value: T)

  /** A JavaScript value as far as the modelled code inspects it. Numbers are
      integers here: the code only tests them for truthiness. */
  datatype Json =
    | JUndefined
    | JNull
    | JBool(b: bool)
    | JNum(n: int)
    | JStr(s: string)
    | JArr(items: seq<Json>)
    | JObj(fields: map<string, Json>)

  /** JavaScript truthiness (`!!v`); every array and object is truthy. */
  predicate Truthy(v: Json) {
    match v
    case JUndefined => false
    case JNull => false
    case JBool(b) => b
    case JNum(n) => n != 0
    case JStr(s) => s != ""
    case JArr(_) => true
    case JObj(_) => true
  }

  /** The characters that `String.prototype.trim` removes and that the
      regular-expression class `\s` matches: WhiteSpace and LineTerminator
      of ECMAScript. */
  predicate IsWhitespace(c: char) {
    c == '\t' || c == '\n' || c == '\U{B}' || c == '\U{C}' || c == '\r' || c == ' '
    || c == '\U{A0}' || c == '\U{1680}' || ('\U{2000}' <= c <= '\U{200A}')
    || c == '\U{2028}' || c == '\U{2029}' || c == '\U{202F}' || c == '\U{205F}'
    || c == '\U{3000}' || c == '\U{FEFF}'
  }

  /** Drops leading whitespace: the result is a suffix of `s`, everything
      dropped is whitespace and the result does not start with whitespace. */
  function TrimStart(s: string): (r: string)
    ensures |r| <= |s| && r == s[|s| - |r|..]
    ensures forall i :: 0 <= i < |s| - |r| ==> IsWhitespace(s[i])
    ensures r == [] || !IsWhitespace(r[0])
  {
    if |s| > 0 && IsWhitespace(s[0]) then TrimStart(s[1..]) else s
  }

  /** Drops trailing whitespace: the result is a prefix of `s`, everything
      dropped is whitespace and the result does not end with whitespace. */
  function TrimEnd(s: string): (r: string)
    ensures |r| <= |s| && r == s[..|r|]
    ensures forall i :: |r| <= i < |s| ==> IsWhitespace(s[i])
    ensures r == [] || !IsWhitespace(r[|r| - 1])
  {
    if |s| > 0 && IsWhitespace(s[|s| - 1]) then TrimEnd(s[..|s| - 1]) else s
  }

  /** `String.prototype.trim`. */
  function Trim(s: string): (r: string)
    ensures |r| <= |s|
    ensures r == [] || (!IsWhitespace(r[0]) && !IsWhitespace(r[|r| - 1]))
  {
    TrimEnd(TrimStart(s))
  }

  /** A string trims to the empty string exactly when all of it is whitespace. */
  lemma TrimEmptyIff(s: string)
    ensures Trim(s) == "" <==> forall i :: 0 <= i < |s| ==> IsWhitespace(s[i])
  {
  }

  /** `s.startsWith(p)`. */
  predicate StartsWith(s: string, p: string) {
    |p| <= |s| && s[..|p|] == p
  }

  /** `p` occurs in `s` starting at offset `i`. */
  predicate OccursAt(s: string, p: string, i: nat) {
    i + |p| <= |s| && s[i..i + |p|] == p
  }

  /** `s.includes(p)`: `p` occurs in `s` at some offset. */
  predicate Contains(s: string, p: string) {
    exists i: nat | i <= |s| :: OccursAt(s, p, i)
  }

  /** Occurrence is transitive: whatever contains `q` contains every
      substring of `q`. */
  lemma ContainsTransitive(s: string, q: string, p: string)
    requires Contains(s, q) && Contains(q, p)
    ensures Contains(s, p)
  {
    var i: nat :| i <= |s| && OccursAt(s, q, i);
    var j: nat :| j <= |q| && OccursAt(q, p, j);
    assert i + |q| <= |s| && s[i..i + |q|] == q;
    assert j + |p| <= |q| && q[j..j + |p|] == p;
    forall k | 0 <= k < |p| ensures s[i + j + k] == p[k] {
      assert s[i + (j + k)] == q[j + k];
    }
    assert s[i + j..i + j + |p|] == p;
    assert OccursAt(s, p, i + j);
  }

  /** `s.split(sep)` for a one-character separator. */
  function Split(s: string, sep: char): (r: seq<string>)
    ensures |r| >= 1
    ensures forall k :: 0 <= k < |r| ==> sep !in r[k]
  {
    if |s| == 0 then [""]
    else if s[0] == sep then [""] + Split(s[1..], sep)
    else
      var rest := Split(s[1..], sep);
      [[s[0]] + rest[0]] + rest[1..]
  }

  /** `parts.join(sep)`. */
  function Join(parts: seq<string>, sep: string): string {
    if |parts| == 0 then ""
    else if |parts| == 1 then parts[0]
    else parts[0] + sep + Join(parts[1..], sep)
  }

  lemma JoinCons(head: string, rest: seq<string>, sep: string)
    requires |rest| >= 1
    ensures Join([head] + rest, sep) == head + sep + Join(rest, sep)
  {
    assert ([head] + rest)[1..] == rest;
  }

  /** Splitting and joining with the same separator is the identity, so the
      segments of `Split` are exactly the separator-free pieces of `s`. */
  lemma {:induction false} JoinSplit(s: string, sep: char)
    ensures Join(Split(s, sep), [sep]) == s
  {
    if |s| == 0 {
    } else if s[0] == sep {
      var rest := Split(s[1..], sep);
      JoinSplit(s[1..], sep);
      JoinCons("", rest, [sep]);
      assert [sep] + s[1..] == s;
    } else {
      var rest := Split(s[1..], sep);
      JoinSplit(s[1..], sep);
      var first := [s[0]] + rest[0];
      if |rest| == 1 {
        assert Split(s, sep) == [first];
        assert rest[0] == s[1..];
        assert first == s;
      } else {
        assert rest == [rest[0]] + rest[1..];
        JoinCons(rest[0], rest[1..], [sep]);
        JoinCons(first, rest[1..], [sep]);
        assert Split(s, sep) == [first] + rest[1..];
        assert s == [s[0]] + s[1..];
      }
    }
  }

  /** Decimal rendering of a natural number, as `String(n)` prints it. */
  function NatToString(n: nat): (r: string)
    ensures |r| >= 1
    ensures forall i :: 0 <= i < |r| ==> '0' <= r[i] <= '9'
    ensures |r| > 1 ==> r[0] != '0'
  {
    if n < 10 then [Digit(n)] else NatToString(n / 10) + [Digit(n % 10)]
  }

  function Digit(d: nat): (c: char)
    requires d < 10
    ensures '0' <= c <= '9'
  {
    ['0', '1', '2', '3', '4', '5', '6', '7', '8', '9'][d]
  }

  /** `String(n)` for an integer. */
  function IntToString(n: int): string {
    if n < 0 then "-" + NatToString(-n) else NatToString(n)
  }

  /** `String(v)` for the values the code interpolates into messages: an
      array prints its elements joined by commas (null and undefined as
      nothing), an object prints `[object Object]`. */
  function JsString(v: Json): string
    decreases v
  {
    match v
    case JUndefined => "undefined"
    case JNull => "null"
    case JBool(b) => if b then "true" else "false"
    case JNum(n) => IntToString(n)
    case JStr(s) => s
    case JArr(items) =>
      Join(seq(|items|, i requires 0 <= i < |items| =>
        if items[i].JUndefined? || items[i].JNull? then "" else JsString(items[i])), ",")
    case JObj(_) => "[object Object]"
  }

  /** A JavaScript `Map`: its entries plus the order in which keys were
      first inserted, which is the order `forEach`, `values()` and
      `Array.from` visit them in. */
  datatype OrderedMap<K(==, !new), V> = OrderedMap(keys: seq<K>, entries: map<K, V>)

  /** No element occurs twice. */
  ghost predicate Distinct<T>(s: seq<T>) {
    forall i, j :: 0 <= i < j < |s| ==> s[i] != s[j]
  }

  /** Keys are listed once each, and exactly the keys with entries are listed. */
  ghost predicate WellFormed<K(!new), V>(m: OrderedMap<K, V>) {
    && Distinct(m.keys)
    && (forall k :: k in m.keys <==> k in m.entries)
  }

  function EmptyMap<K(==, !new), V>(): (r: OrderedMap<K, V>)
    ensures WellFormed(r) && |r.keys| == 0
  {
    OrderedMap([], map[])
  }

  /** `m.set(k, v)`: a new key goes to the end, an existing key keeps its
      place and gets the new value. */
  function MapSet<K(==, !new), V>(m: OrderedMap<K, V>, k: K, v: V): (r: OrderedMap<K, V>)
    requires WellFormed(m)
    ensures WellFormed(r)
    ensures r.entries == m.entries[k := v]
    ensures k in m.entries ==> r.keys == m.keys
    ensures k !in m.entries ==> r.keys == m.keys + [k]
  {
    OrderedMap(if k in m.entries then m.keys else m.keys + [k], m.entries[k := v])
  }

  /** The keys of `keys` other than `k`, in order. */
  function KeysWithout<K(==, !new)>(keys: seq<K>, k: K): (r: seq<K>)
    ensures forall x :: x in r <==> x in keys && x != k
    ensures |r| <= |keys|
  {
    if keys == [] then []
    else if keys[0] == k then KeysWithout(keys[1..], k)
    else [keys[0]] + KeysWithout(keys[1..], k)
  }

  /** Dropping the last element keeps a list distinct, and that element is
      not among the others. */
  lemma DistinctSnoc<T>(s: seq<T>, x: T)
    requires Distinct(s + [x])
    ensures Distinct(s) && x !in s
  {
    forall i | 0 <= i < |s| ensures s[i] != x {
      assert (s + [x])[i] == s[i] && (s + [x])[|s|] == x;
    }
    forall i, j | 0 <= i < j < |s| ensures s[i] != s[j] {
      assert (s + [x])[i] == s[i] && (s + [x])[j] == s[j];
    }
  }

  lemma {:induction false} KeysWithoutDistinct<K(!new)>(keys: seq<K>, k: K)
    requires Distinct(keys)
    ensures Distinct(KeysWithout(keys, k))
  {
    if keys != [] {
      assert Distinct(keys[1..]);
      KeysWithoutDistinct(keys[1..], k);
      assert keys[0] !in keys[1..];
      var rest := KeysWithout(keys[1..], k);
      if keys[0] != k {
        assert keys[0] !in rest;
        var r := [keys[0]] + rest;
        forall i, j | 0 <= i < j < |r| ensures r[i] != r[j] {
          assert r[j] == rest[j - 1] && rest[j - 1] in rest;
          if i > 0 { assert r[i] == rest[i - 1]; }
        }
      }
    }
  }

  /** `m.delete(k)`: the key and its entry go, the others keep their order. */
  function MapDelete<K(==, !new), V>(m: OrderedMap<K, V>, k: K): (r: OrderedMap<K, V>)
    requires WellFormed(m)
    ensures WellFormed(r)
    ensures r.entries == m.entries - {k}
    ensures |r.keys| == if k in m.entries then |m.keys| - 1 else |m.keys|
  {
    KeysWithoutDistinct(m.keys, k);
    DistinctSubsetSize(KeysWithout(m.keys, k), m.keys, k);
    OrderedMap(KeysWithout(m.keys, k), m.entries - {k})
  }

  lemma {:induction false} DistinctSubsetSize<K(!new)>(r: seq<K>, keys: seq<K>, k: K)
    requires Distinct(keys)
    requires r == KeysWithout(keys, k)
    ensures |r| == if k in keys then |keys| - 1 else |keys|
    decreases |keys|
  {
    if keys != [] {
      assert keys[0] !in keys[1..];
      assert Distinct(keys[1..]);
      DistinctSubsetSize(KeysWithout(keys[1..], k), keys[1..], k);
    }
  }

  /** `Array.from(m.values())`. */
  function MapValues<K(==, !new), V>(m: OrderedMap<K, V>): (r: seq<V>)
    requires WellFormed(m)
    ensures |r| == |m.keys|
    ensures forall i :: 0 <= i < |r| ==> r[i] == m.entries[m.keys[i]]
  {
    seq(|m.keys|, i requires 0 <= i < |m.keys| => m.entries[m.keys[i]])
  }

  /** `s.filter(p)`: the elements satisfying `p`, in order. */
  function Filter<T(!new)>(s: seq<T>, p: T -> bool): (r: seq<T>)
    ensures |r| <= |s|
    ensures forall x :: x in r <==> x in s && p(x)
  {
    if s == [] then []
    else if p(s[|s| - 1]) then Filter(s[..|s| - 1], p) + [s[|s| - 1]]
    else Filter(s[..|s| - 1], p)
  }

  lemma FilterAppend<T(!new)>(s: seq<T>, x: T, p: T -> bool)
    ensures Filter(s + [x], p) == Filter(s, p) + if p(x) then [x] else []
  {
    assert (s + [x])[..|s|] == s;
  }

  /** Every element is kept by exactly one of `p` and its negation. */
  lemma {:induction false} FilterComplement<T(!new)>(s: seq<T>, p: T -> bool, q: T -> bool)
    requires forall x :: q(x) == !p(x)
    ensures |Filter(s, p)| + |Filter(s, q)| == |s|
  {
    if s != [] {
      FilterComplement(s[..|s| - 1], p, q);
    }
  }
}

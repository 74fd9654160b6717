/**
 * Parsed JSON values as the extension's code sees them after `parse` or
 * `JSON.parse`, with the JavaScript operations it applies to them:
 * truthiness, property access by string key, indexing by number, `length`
 * and `Object.keys`. The syntax tree that `parseTree` builds is reduced to
 * what the code reads of it: the offset and length of the node found at a path.
 */
module Json {
  import opened Base

  datatype JSON =
    | JNull
    | JBool(b: bool)
    | JNum(n: real)
    | JStr(s: string)
    | JArr(items: seq<JSON>)
    | JObj(members: seq<(string, JSON)>)

  /** JavaScript truthiness: null, false, 0 and "" are falsy. */
  predicate Truthy(j: JSON) {
    match j
    case JNull => false
    case JBool(b) => b
    case JNum(n) => n != 0.0
    case JStr(s) => s != ""
    case JArr(_) => true
    case JObj(_) => true
  }

  /** Truthiness of a value that may be `undefined`. */
  predicate Present(v: Option<JSON>) {
    v.Some? && Truthy(v.value)
  }

  /** The value of the last member named `k` (a repeated key keeps its last value). */
  function Lookup(ms: seq<(string, JSON)>, k: string): (r: Option<JSON>)
    ensures r.Some? <==> exists i :: 0 <= i < |ms| && ms[i].0 == k
    ensures r.Some? ==> (k, r.value) in ms
  {
    if ms == [] then None
    else if ms[|ms| - 1].0 == k then Some(ms[|ms| - 1].1)
    else
      var r := Lookup(ms[..|ms| - 1], k);
      assert forall i :: 0 <= i < |ms| - 1 ==> ms[..|ms| - 1][i] == ms[i];
      r
  }

  /** `j[k]` for a string key; only objects have such properties here. */
  function Get(j: JSON, k: string): Option<JSON> {
    if j.JObj? then Lookup(j.members, k) else None
  }

  /** `v?.[k]`: reading through a value that may be `undefined`. */
  function GetOpt(v: Option<JSON>, k: string): Option<JSON> {
    if v.Some? then Get(v.value, k) else None
  }

  /** The member names of an object, in order, repetitions included. */
  function MemberNames(ms: seq<(string, JSON)>): (r: seq<string>)
    ensures |r| == |ms|
    ensures forall i :: 0 <= i < |ms| ==> r[i] == ms[i].0
  {
    if ms == [] then [] else MemberNames(ms[..|ms| - 1]) + [ms[|ms| - 1].0]
  }

  /** The array-index keys "0", "1", ..., of a value of length `n`. */
  function IndexKeys(n: nat): (r: seq<string>)
    ensures |r| == n
    ensures forall i :: 0 <= i < n ==> r[i] == NatToString(i)
  {
    if n == 0 then [] else IndexKeys(n - 1) + [NatToString(n - 1)]
  }

  /** `Object.keys(j)`: an object's distinct member names in order of first appearance. */
  function Keys(j: JSON): (r: seq<string>)
    ensures j.JObj? ==> forall k :: k in r <==> Get(j, k).Some?
    ensures j.JObj? ==> forall a, b :: 0 <= a < b < |r| ==> r[a] != r[b]
    ensures j.JNull? || j.JBool? || j.JNum? ==> r == []
  {
    match j
    case JObj(ms) =>
      var r := Dedup(MemberNames(ms));
      assert forall k :: k in MemberNames(ms) <==> exists i :: 0 <= i < |ms| && ms[i].0 == k by {
        forall k ensures k in MemberNames(ms) <==> exists i :: 0 <= i < |ms| && ms[i].0 == k {
          if k in MemberNames(ms) {
            var i :| 0 <= i < |ms| && MemberNames(ms)[i] == k;
          }
        }
      }
      r
    case JArr(items) => IndexKeys(|items|)
    case JStr(s) => IndexKeys(|s|)
    case _ => []
  }

  /** Appending a member overrides that key and leaves every other key as it was. */
  lemma {:induction false} GetAppend(ms: seq<(string, JSON)>, k: string, v: JSON, key: string)
    ensures Get(JObj(ms + [(k, v)]), key) == if key == k then Some(v) else Get(JObj(ms), key)
  {
    assert (ms + [(k, v)])[..|ms|] == ms;
  }

  /** Appending a member adds its key at the end of `Object.keys` unless it is already there. */
  lemma {:induction false} KeysAppend(ms: seq<(string, JSON)>, k: string, v: JSON)
    ensures Keys(JObj(ms + [(k, v)])) ==
      if k in Keys(JObj(ms)) then Keys(JObj(ms)) else Keys(JObj(ms)) + [k]
  {
    var ms2 := ms + [(k, v)];
    assert ms2[..|ms|] == ms;
    assert MemberNames(ms2) == MemberNames(ms) + [k];
    assert MemberNames(ms2)[..|ms|] == MemberNames(ms);
    assert Keys(JObj(ms)) == Dedup(MemberNames(ms));
    assert Keys(JObj(ms2)) == Dedup(MemberNames(ms2));
  }

  /** `j[i]` for a number index: an array element, or a one-character string. */
  function At(j: JSON, i: int): (r: Option<JSON>)
    ensures j.JArr? && 0 <= i < |j.items| ==> r == Some(j.items[i])
  {
    match j
    case JArr(items) => if 0 <= i < |items| then Some(items[i]) else None
    case JStr(s) => if 0 <= i < |s| then Some(JStr([s[i]])) else None
    case _ => None
  }

  /**
   * The values `j[0]`, ..., `j[j.length - 1]` that an indexed `for` loop
   * visits: an array's elements, a string's one-character strings, and
   * nothing for a value without a `length`.
   */
  function Elements(j: JSON): (r: seq<JSON>)
    ensures j.JArr? ==> r == j.items
    ensures Length(j).Some? ==> |r| == Length(j).value
    ensures Length(j).None? ==> r == []
    ensures forall i :: 0 <= i < |r| ==> At(j, i) == Some(r[i])
  {
    match j
    case JArr(items) => items
    case JStr(s) => seq(|s|, i requires 0 <= i < |s| => JStr([s[i]]))
    case _ => []
  }

  /** `j.length`: defined for arrays and strings only. */
  function Length(j: JSON): Option<int> {
    match j
    case JArr(items) => Some(|items|)
    case JStr(s) => Some(|s|)
    case _ => None
  }

  /** The string value of `v`, when it is a string. */
  function AsString(v: Option<JSON>): Option<string> {
    if v.Some? && v.value.JStr? then Some(v.value.s) else None
  }

  /** One step of a path into a JSON value: an object key or an array index. */
  datatype Segment = Key(key: string) | Index(index: int)

  type Path = seq<Segment>

  /** A node of the syntax tree: where its value starts in the text and how long it is. */
  datatype Node = Node(offset: int, length: int)
}

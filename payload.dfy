/**
 * Decoded JSON payloads and the field lookup the generic extractor is built
 * on: choosing the "result" object, turning a value into text, and picking
 * the first usable value from an ordered list of candidate keys.
 */
module Payload {
  import opened GoText

  /**
   * A decoded JSON value. A number carries the decimal text Go renders for
   * it (`strconv.FormatFloat(f, 'f', -1, 64)`); the rendering itself is not
   * modelled.
   */
  datatype Json =
    | JString(str: string)
    | JNumber(text: string)
    | JBool(b: bool)
    | JNull
    | JArray(items: seq<Json>)
    | JObject(fields: map<string, Json>)

  /** A decoded JSON object. */
  type Object = map<string, Json>

  /**
   * `stringify`: strings pass through, numbers give their decimal text, and
   * every other kind of value gives "" (which callers read as "not found").
   */
  function Stringify(v: Json): (r: string)
    ensures v.JString? ==> r == v.str
    ensures v.JNumber? ==> r == v.text
    ensures r != "" ==> v.JString? || v.JNumber?
  {
    match v
    case JString(s) => s
    case JNumber(t) => t
    case _ => ""
  }

  /** The object under `result`, when there is one. */
  predicate HasResultObject(payload: Object) {
    "result" in payload && payload["result"].JObject?
  }

  /** The first element of `results`, when that is an object. */
  predicate HasFirstResultObject(payload: Object) {
    "results" in payload && payload["results"].JArray?
    && |payload["results"].items| > 0 && payload["results"].items[0].JObject?
  }

  /**
   * `extractResult`: the object under `result`; failing that, the first
   * element of the `results` array when it is an object; failing that, the
   * empty object.
   */
  function ExtractResult(payload: Object): (r: Object)
    ensures HasResultObject(payload) ==> r == payload["result"].fields
    ensures !HasResultObject(payload) && HasFirstResultObject(payload) ==>
              r == payload["results"].items[0].fields
    ensures !HasResultObject(payload) && !HasFirstResultObject(payload) ==> r == map[]
  {
    if HasResultObject(payload) then payload["result"].fields
    else if HasFirstResultObject(payload) then payload["results"].items[0].fields
    else map[]
  }

  /**
   * No key of `src` that folds equal to `k` (`k` itself included) holds a
   * value with non-empty text: the candidate `k` finds nothing.
   */
  predicate Misses(src: Object, k: string) {
    forall sk :: sk in src && EqualFold(sk, k) ==> Stringify(src[sk]) == ""
  }

  /** Every candidate key in `keys` finds nothing. */
  predicate AllMiss(src: Object, keys: seq<string>) {
    forall i :: 0 <= i < |keys| ==> Misses(src, keys[i])
  }

  /**
   * `s` is a value the lookup of one candidate `k` may produce: the exact
   * key's text when that is non-empty, otherwise the non-empty text of some
   * key that folds equal to `k` (Go visits those in map order, which is
   * unspecified).
   */
  ghost predicate KeyGives(src: Object, k: string, s: string) {
    s != "" &&
    if k in src && Stringify(src[k]) != "" then s == Stringify(src[k])
    else exists sk :: sk in src && EqualFold(sk, k) && Stringify(src[sk]) == s
  }

  /**
   * `r` is a result `pickString(src, keys...)` may return: "" when every
   * candidate misses, otherwise what the first candidate that does not miss
   * gives.
   */
  ghost predicate IsPick(src: Object, keys: seq<string>, r: string) {
    if AllMiss(src, keys) then r == ""
    else exists i :: 0 <= i < |keys| && AllMiss(src, keys[..i]) && KeyGives(src, keys[i], r)
  }

  /** A candidate that gives a value does not miss. */
  lemma GivesDoesNotMiss(src: Object, k: string, s: string)
    requires KeyGives(src, k, s)
    ensures !Misses(src, k)
  {
    if k in src && Stringify(src[k]) != "" {
      assert EqualFold(k, k);
    } else {
      var sk :| sk in src && EqualFold(sk, k) && Stringify(src[sk]) == s;
    }
  }

  /**
   * The body of `pickString`'s loop for one candidate `k`: the exact key
   * first, then a scan over every key of `src` that folds equal to `k`.
   */
  method LookupCandidate(src: Object, k: string) returns (s: string)
    ensures s == "" ==> Misses(src, k)
    ensures s != "" ==> KeyGives(src, k, s)
  {
    if k in src {
      s := Stringify(src[k]);
      if s != "" {
        return;
      }
    }
    var rest := src.Keys;
    while rest != {}
      invariant rest <= src.Keys
      invariant forall sk :: sk in src && sk !in rest && EqualFold(sk, k) ==> Stringify(src[sk]) == ""
      decreases |rest|
    {
      var sk :| sk in rest;
      if EqualFold(sk, k) {
        s := Stringify(src[sk]);
        if s != "" {
          return;
        }
      }
      rest := rest - {sk};
    }
    s := "";
  }

  /**
   * `pickString`: walks the candidates in order and returns what the first
   * one that finds a non-empty text gives, or "" when there is none.
   */
  method PickString(src: Object, keys: seq<string>) returns (r: string)
    ensures IsPick(src, keys, r)
    ensures r == "" <==> AllMiss(src, keys)
  {
    var i := 0;
    while i < |keys|
      invariant 0 <= i <= |keys|
      invariant AllMiss(src, keys[..i])
    {
      var s := LookupCandidate(src, keys[i]);
      if s != "" {
        GivesDoesNotMiss(src, keys[i], s);
        return s;
      }
      assert keys[..i + 1] == keys[..i] + [keys[i]];
      i := i + 1;
    }
    assert keys[..i] == keys;
    r := "";
  }

  /** Case folding relates keys symmetrically and transitively. */
  lemma EqualFoldEquivalence(a: string, b: string, c: string)
    ensures EqualFold(a, b) ==> EqualFold(b, a)
    ensures EqualFold(a, b) && EqualFold(b, c) ==> EqualFold(a, c)
  {
  }

  /** No two different keys of `src` fold equal. */
  predicate FoldDistinct(src: Object) {
    forall k1, k2 :: k1 in src && k2 in src && k1 != k2 ==> !EqualFold(k1, k2)
  }

  /** When the keys of `src` are distinct under folding, one candidate gives at most one value. */
  lemma KeyGivesUnique(src: Object, k: string, s1: string, s2: string)
    requires FoldDistinct(src)
    requires KeyGives(src, k, s1) && KeyGives(src, k, s2)
    ensures s1 == s2
  {
    if !(k in src && Stringify(src[k]) != "") {
      var a :| a in src && EqualFold(a, k) && Stringify(src[a]) == s1;
      var b :| b in src && EqualFold(b, k) && Stringify(src[b]) == s2;
      EqualFoldEquivalence(a, k, b);
      EqualFoldEquivalence(b, k, a);
      assert a == b;
    }
  }

  /** At most one position holds the first candidate that does not miss. */
  lemma FirstHitUnique(src: Object, keys: seq<string>, i1: nat, i2: nat)
    requires i1 < |keys| && AllMiss(src, keys[..i1]) && !Misses(src, keys[i1])
    requires i2 < |keys| && AllMiss(src, keys[..i2]) && !Misses(src, keys[i2])
    ensures i1 == i2
  {
  }

  /**
   * The case-insensitive scan is the only source of choice: when no two keys
   * of `src` fold equal, `pickString` has exactly one possible result.
   */
  lemma PickUnique(src: Object, keys: seq<string>, r1: string, r2: string)
    requires FoldDistinct(src)
    requires IsPick(src, keys, r1) && IsPick(src, keys, r2)
    ensures r1 == r2
  {
    if !AllMiss(src, keys) {
      var i1 :| 0 <= i1 < |keys| && AllMiss(src, keys[..i1]) && KeyGives(src, keys[i1], r1);
      var i2 :| 0 <= i2 < |keys| && AllMiss(src, keys[..i2]) && KeyGives(src, keys[i2], r2);
      GivesDoesNotMiss(src, keys[i1], r1);
      GivesDoesNotMiss(src, keys[i2], r2);
      FirstHitUnique(src, keys, i1, i2);
      KeyGivesUnique(src, keys[i1], r1, r2);
    }
  }

  /**
   * When every candidate before position `j` misses and the exact key
   * `keys[j]` holds non-empty text, that text is the only possible result.
   */
  lemma PickExactAt(src: Object, keys: seq<string>, j: nat, r: string)
    requires j < |keys| && AllMiss(src, keys[..j])
    requires keys[j] in src && Stringify(src[keys[j]]) != ""
    requires IsPick(src, keys, r)
    ensures r == Stringify(src[keys[j]])
  {
    assert KeyGives(src, keys[j], Stringify(src[keys[j]]));
    GivesDoesNotMiss(src, keys[j], Stringify(src[keys[j]]));
    assert !AllMiss(src, keys);
    var i :| 0 <= i < |keys| && AllMiss(src, keys[..i]) && KeyGives(src, keys[i], r);
    GivesDoesNotMiss(src, keys[i], r);
    FirstHitUnique(src, keys, i, j);
  }
}

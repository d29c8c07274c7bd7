/**
  Small building blocks shared by the detector, the translation service and
  the three coordinators: an optional value (Python's None, JavaScript's null),
  the requests a coordinator sends to the outside world, list lookups in the
  style of Python's `list.index` and `dict.get`, and truthiness of an optional
  string.
*/
module Common {

  datatype Option<+T> = None | Some(value: T)

  /** `if x:` on a value that is None/null or a string: only a non-empty string is truthy. */
  predicate Truthy(o: Option<string>)
  {
    o.Some? && o.value != ""
  }

  /** An outgoing call to a collaborator (detector, translator, speech). */
  datatype Request =
    | DetectRequest(text: string)
    | TranslateRequest(text: string, target: string, source: Option<string>)
    | SpeakRequest(text: string, lang: string)
    | StopAudioRequest

  /** Position of the first occurrence of `x` in `s`, as `list.index` finds it. */
  function IndexOf<T(==)>(s: seq<T>, x: T): (r: Option<nat>)
    ensures r.None? <==> x !in s
    ensures r.Some? ==> r.value < |s| && s[r.value] == x
    ensures r.Some? ==> forall j :: 0 <= j < r.value ==> s[j] != x
  {
    if s == [] then None
    else if s[0] == x then Some(0)
    else match IndexOf(s[1..], x)
      case None => None
      case Some(k) => Some(k + 1)
  }

  /** The keys of an ordered association list, in order. */
  function Keys<K, V>(pairs: seq<(K, V)>): (r: seq<K>)
    ensures |r| == |pairs|
    ensures forall i :: 0 <= i < |pairs| ==> r[i] == pairs[i].0
  {
    seq(|pairs|, i requires 0 <= i < |pairs| => pairs[i].0)
  }

  /** `d.get(key, default)` on a dictionary given as an ordered association list. */
  function Lookup<K(==), V>(pairs: seq<(K, V)>, key: K, default: V): (r: V)
  {
    if pairs == [] then default
    else if pairs[0].0 == key then pairs[0].1
    else Lookup(pairs[1..], key, default)
  }

  /** Lookup answers with the entry of the first occurrence of the key, or the default when it is absent. */
  lemma {:induction false} LookupFindsFirst<K, V>(pairs: seq<(K, V)>, key: K, default: V)
    ensures key !in Keys(pairs) ==> Lookup(pairs, key, default) == default
    ensures key in Keys(pairs) ==> Lookup(pairs, key, default) == pairs[IndexOf(Keys(pairs), key).value].1
  {
    if pairs != [] && pairs[0].0 != key {
      LookupFindsFirst(pairs[1..], key, default);
      assert Keys(pairs)[1..] == Keys(pairs[1..]);
    }
  }
}

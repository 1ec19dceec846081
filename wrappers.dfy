/**
 * Optional values and the outcomes of a rule that may raise.
 *
 * Python's `None` results become `None`, and every exception a rule can raise
 * (an Odoo `ValidationError` shown to the user, or a Python runtime error on
 * an input the code does not guard against) becomes a `Fail` with its kind.
 */
module BomWrappers {

  datatype Option<T> = None | Some(value: T)

  /** The exceptions the modelled rules raise. */
  datatype PyError =
    | ValidationError(message: string)
    | TypeError
    | IndexError
    | ValueError
    | ZeroDivisionError
    | AttributeError
    | UnboundLocalError

  datatype Result<T> = Ok(value: T) | Fail(error: PyError)

  /** Python truthiness of an optional string: `None` and `""` are both false. */
  predicate Truthy(s: Option<string>)
  {
    s.Some? && s.value != ""
  }

  /**
   * `d.get(k)` on a dict literal, given as its entries in insertion order.
   * The dict literals of the rule engine have no repeated keys, so the first
   * entry with the key is the one Python keeps.
   */
  function Get<K(==), V>(t: seq<(K, V)>, k: K): (r: Option<V>)
    ensures r.None? <==> forall i :: 0 <= i < |t| ==> t[i].0 != k
    ensures r.Some? ==> (k, r.value) in t
  {
    if t == [] then None
    else if t[0].0 == k then Some(t[0].1)
    else Get(t[1..], k)
  }

  /** `d.get(k, default)`. */
  function GetOr<K(==), V>(t: seq<(K, V)>, k: K, default: V): (r: V)
    ensures (forall i :: 0 <= i < |t| ==> t[i].0 != k) ==> r == default
    ensures (exists i :: 0 <= i < |t| && t[i].0 == k) ==> (k, r) in t
  {
    match Get(t, k)
    case None => default
    case Some(v) => v
  }

  /** `k in d`. */
  predicate HasKey<K(==), V>(t: seq<(K, V)>, k: K)
  {
    exists i :: 0 <= i < |t| && t[i].0 == k
  }

  /** No key of `t` is repeated. */
  predicate DistinctKeys<K(==), V>(t: seq<(K, V)>)
  {
    forall i, j :: 0 <= i < j < |t| ==> t[i].0 != t[j].0
  }

  /** `get` returns the value of the first entry with the key. */
  lemma {:induction false} GetFirst<K, V>(t: seq<(K, V)>, j: nat)
    requires j < |t| && forall i :: 0 <= i < j ==> t[i].0 != t[j].0
    ensures Get(t, t[j].0) == Some(t[j].1)
  {
    if j > 0 {
      assert t[1..][j - 1] == t[j];
      GetFirst(t[1..], j - 1);
    }
  }

  /** Among distinct keys, `get` returns the value stored with the key. */
  lemma {:induction false} GetEntry<K, V>(t: seq<(K, V)>, i: nat)
    requires DistinctKeys(t) && i < |t|
    ensures Get(t, t[i].0) == Some(t[i].1)
  {
    if i > 0 {
      assert t[0].0 != t[i].0;
      assert t[1..][i - 1] == t[i];
      GetEntry(t[1..], i - 1);
    }
  }
}

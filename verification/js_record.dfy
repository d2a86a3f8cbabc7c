/**
 * A plain JavaScript object used as a table of instance variables
 * (`Record<string, string | number | boolean>`): keys keep their insertion
 * order, assigning to a present key keeps its place, assigning to a new key
 * appends it, and reading an absent key gives `undefined`.
 */
module JsRecord {
  import opened Types

  function Keys(r: Vars): (ks: seq<string>)
    ensures |ks| == |r|
    ensures forall i :: 0 <= i < |r| ==> ks[i] == r[i].0
  {
    if r == [] then [] else [r[0].0] + Keys(r[1..])
  }

  predicate UniqueKeys(r: Vars) {
    forall i, j :: 0 <= i < j < |r| ==> r[i].0 != r[j].0
  }

  predicate HasKey(r: Vars, k: string) {
    exists i :: 0 <= i < |r| && r[i].0 == k
  }

  /** `r[k]`. */
  function Get(r: Vars, k: string): (v: Value)
    ensures !HasKey(r, k) ==> v == Undefined
    ensures forall i :: 0 <= i < |r| && r[i].0 == k && (forall j :: 0 <= j < i ==> r[j].0 != k) ==> v == r[i].1
  {
    if r == [] then Undefined
    else if r[0].0 == k then r[0].1
    else
      assert forall i :: 1 <= i < |r| ==> r[i] == r[1..][i - 1];
      Get(r[1..], k)
  }

  /** `r[k] = v`. */
  function Set(r: Vars, k: string, v: Value): (r': Vars)
    ensures HasKey(r, k) ==> |r'| == |r|
    ensures !HasKey(r, k) ==> r' == r + [(k, v)]
    ensures Keys(r') == if HasKey(r, k) then Keys(r) else Keys(r) + [k]
  {
    if r == [] then [(k, v)]
    else if r[0].0 == k then [(k, v)] + r[1..]
    else
      assert HasKey(r, k) <==> HasKey(r[1..], k) by {
        if HasKey(r, k) {
          var i :| 0 <= i < |r| && r[i].0 == k;
          assert r[1..][i - 1] == r[i];
        }
        if HasKey(r[1..], k) {
          var i :| 0 <= i < |r| - 1 && r[1..][i].0 == k;
          assert r[i + 1] == r[1..][i];
        }
      }
      [r[0]] + Set(r[1..], k, v)
  }

  lemma {:induction false} GetSetSame(r: Vars, k: string, v: Value)
    ensures Get(Set(r, k, v), k) == v
  {
    if r != [] && r[0].0 != k {
      GetSetSame(r[1..], k, v);
    }
  }

  lemma {:induction false} GetSetOther(r: Vars, k: string, v: Value, k': string)
    requires k' != k
    ensures Get(Set(r, k, v), k') == Get(r, k')
  {
    if r != [] && r[0].0 != k {
      GetSetOther(r[1..], k, v, k');
    }
  }

  lemma {:induction false} SetKeepsUniqueKeys(r: Vars, k: string, v: Value)
    requires UniqueKeys(r)
    ensures UniqueKeys(Set(r, k, v))
  {
    var r' := Set(r, k, v);
    var ks := Keys(r');
    assert forall i :: 0 <= i < |r'| ==> ks[i] == r'[i].0;
    assert forall i :: 0 <= i < |r| ==> Keys(r)[i] == r[i].0;
    if !HasKey(r, k) {
      assert r' == r + [(k, v)];
    }
  }
}

/** A company's fundamental snapshot (`company_info`): a Python dict, whose
    keys keep their insertion order, from column names to values. Scanners
    delete and assign keys of this dict in place. */
module Records {
  import opened Common

  datatype Value = Num(x: Float) | Text(s: string) | Flag(b: bool) | Day(d: int) | Null

  function Real(r: real): Value
  {
    Num(Finite(r))
  }

  /** `keys` is the insertion order of the dict, `vals` its contents. */
  datatype Dict = Dict(keys: seq<string>, vals: map<string, Value>)

  predicate Distinct(ks: seq<string>)
  {
    forall i, j :: 0 <= i < j < |ks| ==> ks[i] != ks[j]
  }

  predicate WellFormed(d: Dict)
  {
    Distinct(d.keys) && d.vals.Keys == set k | k in d.keys
  }

  /** Python's truthiness of a dict: false exactly when it has no keys. */
  predicate IsEmpty(d: Dict)
  {
    |d.vals| == 0
  }

  function Get(d: Dict, k: string): Option<Value>
  {
    if k in d.vals then Some(d.vals[k]) else None
  }

  /** `d.get(k)` read as a number: `None` when the key is absent, holds
      None, or holds a value that is not a number. */
  function GetNumber(d: Dict, k: string): (r: Option<Float>)
    ensures r.Some? <==> k in d.vals && d.vals[k].Num?
  {
    if k in d.vals && d.vals[k].Num? then Some(d.vals[k].x) else None
  }

  /** The key order with `k` taken out, the others kept in order. */
  function Without(ks: seq<string>, k: string): (r: seq<string>)
    ensures forall x :: x in r <==> x in ks && x != k
    ensures |r| <= |ks|
  {
    if ks == [] then []
    else (if ks[0] == k then [] else [ks[0]]) + Without(ks[1..], k)
  }

  lemma {:induction false} WithoutDistinct(ks: seq<string>, k: string)
    requires Distinct(ks)
    ensures Distinct(Without(ks, k))
  {
    if ks != [] {
      WithoutDistinct(ks[1..], k);
      var rest := Without(ks[1..], k);
      assert ks[0] !in rest by {
        assert ks[0] !in ks[1..];
      }
    }
  }

  /** `if k in d: del d[k]`. */
  function Delete(d: Dict, k: string): (r: Dict)
    ensures r.vals == d.vals - {k}
    ensures WellFormed(d) ==> WellFormed(r)
  {
    if k in d.vals then
      WithoutDistinctWf(d, k);
      Dict(Without(d.keys, k), d.vals - {k})
    else d
  }

  lemma WithoutDistinctWf(d: Dict, k: string)
    ensures WellFormed(d) ==> WellFormed(Dict(Without(d.keys, k), d.vals - {k}))
  {
    if WellFormed(d) {
      WithoutDistinct(d.keys, k);
    }
  }

  /** `d[k] = v`: an existing key keeps its position, a new key goes last. */
  function Put(d: Dict, k: string, v: Value): (r: Dict)
    ensures r.vals == d.vals[k := v]
    ensures WellFormed(d) ==> WellFormed(r)
    ensures WellFormed(d) ==> r.keys == if k in d.vals then d.keys else d.keys + [k]
  {
    if k in d.vals then Dict(d.keys, d.vals[k := v]) else Dict(d.keys + [k], d.vals[k := v])
  }

  /** `for k in ks: if k in d: del d[k]`. */
  function DeleteAll(d: Dict, ks: seq<string>): (r: Dict)
    ensures r.vals == d.vals - set k | k in ks
    ensures WellFormed(d) ==> WellFormed(r)
  {
    if ks == [] then d
    else Delete(DeleteAll(d, ks[..|ks| - 1]), ks[|ks| - 1])
  }

  /** Deleting keys removes exactly those keys and leaves every other entry,
      and the order of the remaining keys, as it was. */
  lemma {:induction false} DeleteAllKeepsOrder(d: Dict, ks: seq<string>, i: nat, j: nat)
      returns (a: nat, b: nat)
    requires i < j < |DeleteAll(d, ks).keys|
    ensures a < b < |d.keys|
    ensures d.keys[a] == DeleteAll(d, ks).keys[i] && d.keys[b] == DeleteAll(d, ks).keys[j]
  {
    if ks == [] {
      a, b := i, j;
    } else {
      var prev := DeleteAll(d, ks[..|ks| - 1]);
      var k := ks[|ks| - 1];
      if k in prev.vals {
        var c, e := WithoutKeepsOrder(prev.keys, k, i, j);
        a, b := DeleteAllKeepsOrder(d, ks[..|ks| - 1], c, e);
      } else {
        a, b := DeleteAllKeepsOrder(d, ks[..|ks| - 1], i, j);
      }
    }
  }

  lemma {:induction false} WithoutKeepsOrder(ks: seq<string>, k: string, i: nat, j: nat)
      returns (a: nat, b: nat)
    requires i < j < |Without(ks, k)|
    ensures a < b < |ks| && ks[a] == Without(ks, k)[i] && ks[b] == Without(ks, k)[j]
  {
    var r := Without(ks, k);
    var rest := Without(ks[1..], k);
    if ks[0] == k {
      assert r == rest;
      a, b := WithoutKeepsOrder(ks[1..], k, i, j);
      a, b := a + 1, b + 1;
    } else {
      assert r == [ks[0]] + rest;
      if i == 0 {
        var c: nat, d: nat;
        if j - 1 > 0 {
          c, d := WithoutKeepsOrder(ks[1..], k, 0, j - 1);
        } else {
          assert rest[0] in rest;
          d := WithoutIndex(ks[1..], k, 0);
        }
        a, b := 0, d + 1;
      } else {
        a, b := WithoutKeepsOrder(ks[1..], k, i - 1, j - 1);
        a, b := a + 1, b + 1;
      }
    }
  }

  lemma {:induction false} WithoutIndex(ks: seq<string>, k: string, i: nat) returns (a: nat)
    requires i < |Without(ks, k)|
    ensures a < |ks| && ks[a] == Without(ks, k)[i]
  {
    var r := Without(ks, k);
    assert r[i] in r;
    a :| 0 <= a < |ks| && ks[a] == r[i];
  }

  /** The names of a list of assignments, in order. */
  function Names(es: seq<(string, Value)>): (r: seq<string>)
    ensures |r| == |es| && forall j :: 0 <= j < |es| ==> r[j] == es[j].0
  {
    seq(|es|, j requires 0 <= j < |es| => es[j].0)
  }

  /** `d[k1] = v1; d[k2] = v2; ...` in order. */
  function PutAll(d: Dict, es: seq<(string, Value)>): (r: Dict)
    ensures WellFormed(d) ==> WellFormed(r)
    ensures forall k :: k in r.vals <==> k in d.vals || k in Names(es)
    ensures forall k :: k in d.vals && k !in Names(es) ==> r.vals[k] == d.vals[k]
  {
    if es == [] then d
    else
      var init := es[..|es| - 1];
      assert Names(es) == Names(init) + [es[|es| - 1].0];
      Put(PutAll(d, init), es[|es| - 1].0, es[|es| - 1].1)
  }

  /** When the assigned names are distinct, each one ends up holding the
      value assigned to it. */
  lemma {:induction false} PutAllValues(d: Dict, es: seq<(string, Value)>, j: nat)
    requires Distinct(Names(es))
    requires j < |es|
    ensures es[j].0 in PutAll(d, es).vals && PutAll(d, es).vals[es[j].0] == es[j].1
  {
    var init := es[..|es| - 1];
    assert Names(es) == Names(init) + [es[|es| - 1].0];
    if j < |es| - 1 {
      assert Names(init)[j] == Names(es)[j];
      assert es[j].0 != es[|es| - 1].0 by {
        assert Names(es)[j] != Names(es)[|es| - 1];
      }
      PutAllValues(d, init, j);
    }
  }

  /** What the detectors do on a match: drop some keys (when present), then
      assign the computed fields. */
  function Enriched(d: Dict, drops: seq<string>, es: seq<(string, Value)>): (r: Dict)
    ensures WellFormed(d) ==> WellFormed(r)
    ensures forall k :: k in r.vals <==> (k in d.vals && k !in drops) || k in Names(es)
    ensures forall k :: k in d.vals && k !in drops && k !in Names(es) ==> r.vals[k] == d.vals[k]
    ensures Distinct(Names(es)) ==> forall j :: 0 <= j < |es| ==> r.vals[es[j].0] == es[j].1
    ensures |es| > 0 ==> !IsEmpty(r)
  {
    EnrichedValues(DeleteAll(d, drops), es);
    PutAll(DeleteAll(d, drops), es)
  }

  /** After the enrichment, field j holds the value assigned to it. */
  lemma EnrichedAt(d: Dict, drops: seq<string>, es: seq<(string, Value)>, j: nat)
    requires Distinct(Names(es)) && j < |es|
    ensures es[j].0 in Enriched(d, drops, es).vals && Enriched(d, drops, es).vals[es[j].0] == es[j].1
  {
    assert Names(es)[j] == es[j].0;
  }

  lemma EnrichedValues(d: Dict, es: seq<(string, Value)>)
    ensures Distinct(Names(es)) ==> forall j :: 0 <= j < |es| ==> PutAll(d, es).vals[es[j].0] == es[j].1
    ensures |es| > 0 ==> !IsEmpty(PutAll(d, es))
  {
    forall j | 0 <= j < |es| && Distinct(Names(es))
      ensures PutAll(d, es).vals[es[j].0] == es[j].1
    {
      PutAllValues(d, es, j);
    }
    if |es| > 0 {
      assert es[0].0 == Names(es)[0];
      assert es[0].0 in PutAll(d, es).vals;
    }
  }

  /** `for k in ks: del d[k]`: a key that is missing when its turn comes
      raises KeyError. */
  function DeleteStrict(d: Dict, ks: seq<string>): (r: Result<Dict>)
    ensures Distinct(ks) ==> (r.Success? <==> forall k :: k in ks ==> k in d.vals)
    ensures r.Success? ==> r.value.vals == d.vals - set k | k in ks
    ensures r.Success? && WellFormed(d) ==> WellFormed(r.value)
    ensures r.Failure? ==> r.error == "KeyError"
    decreases |ks|
  {
    if ks == [] then Success(d)
    else if ks[0] !in d.vals then Failure("KeyError")
    else
      var rest := DeleteStrict(Delete(d, ks[0]), ks[1..]);
      assert Distinct(ks) ==> Distinct(ks[1..]) && ks[0] !in ks[1..];
      assert forall k :: k in ks <==> k == ks[0] || k in ks[1..];
      rest
  }

  /** The mutable `company_info` dict handed to a scanner. */
  class CompanyInfo {
    var keys: seq<string>
    var vals: map<string, Value>

    function Snapshot(): Dict
      reads this
    {
      Dict(keys, vals)
    }

    predicate Valid()
      reads this
    {
      WellFormed(Snapshot())
    }

    constructor (d: Dict)
      requires WellFormed(d)
      ensures Valid() && Snapshot() == d
    {
      keys := d.keys;
      vals := d.vals;
    }

    /** `for key in ks: if key in company_info: del company_info[key]`. */
    method DiscardKeys(ks: seq<string>)
      requires Valid()
      modifies this
      ensures Valid() && Snapshot() == DeleteAll(old(Snapshot()), ks)
    {
      var j := 0;
      while j < |ks|
        invariant 0 <= j <= |ks|
        invariant Valid() && Snapshot() == DeleteAll(old(Snapshot()), ks[..j])
      {
        var k := ks[j];
        if k in vals {
          WithoutDistinctWf(Snapshot(), k);
          keys := Without(keys, k);
          vals := vals - {k};
        }
        assert ks[..j + 1][..j] == ks[..j];
        j := j + 1;
      }
      assert ks[..j] == ks;
    }

    /** The match branch of a detector: delete `drops` where present, then
        assign every field of `es` in order. */
    method Enrich(drops: seq<string>, es: seq<(string, Value)>)
      requires Valid()
      modifies this
      ensures Valid() && Snapshot() == Enriched(old(Snapshot()), drops, es)
    {
      DiscardKeys(drops);
      var base := Snapshot();
      var j := 0;
      while j < |es|
        invariant 0 <= j <= |es|
        invariant Valid() && Snapshot() == PutAll(base, es[..j])
      {
        Assign(es[j].0, es[j].1);
        assert es[..j + 1][..j] == es[..j];
        j := j + 1;
      }
      assert es[..j] == es;
    }

    /** `for k in ks: del company_info[k]`; `ok` is false when a key is
        missing, where Python raises KeyError. */
    method DeleteKeys(ks: seq<string>) returns (ok: bool)
      requires Valid()
      modifies this
      ensures Valid()
      ensures ok <==> DeleteStrict(old(Snapshot()), ks).Success?
      ensures ok ==> Snapshot() == DeleteStrict(old(Snapshot()), ks).value
    {
      var j := 0;
      while j < |ks|
        invariant 0 <= j <= |ks|
        invariant Valid() && DeleteStrict(Snapshot(), ks[j..]) == DeleteStrict(old(Snapshot()), ks)
      {
        var k := ks[j];
        if k !in vals {
          return false;
        }
        assert ks[j..][1..] == ks[j + 1..];
        WithoutDistinctWf(Snapshot(), k);
        keys := Without(keys, k);
        vals := vals - {k};
        j := j + 1;
      }
      return true;
    }

    /** `company_info[k] = v`. */
    method Assign(k: string, v: Value)
      requires Valid()
      modifies this
      ensures Valid() && Snapshot() == Put(old(Snapshot()), k, v)
    {
      if k !in vals {
        keys := keys + [k];
      }
      vals := vals[k := v];
    }
  }
}

/**
 * A tally keyed by name, as the extensions keep it in a plain object
 * (`counts[name] = (counts[name] || 0) + n`): keys in first-insertion order,
 * an absent key reading as 0.
 */
module Counter {

  type Counts = seq<(string, nat)>

  function Keys(c: Counts): (ks: seq<string>)
    ensures |ks| == |c|
    ensures forall i :: 0 <= i < |c| ==> ks[i] == c[i].0
  {
    if c == [] then [] else [c[0].0] + Keys(c[1..])
  }

  predicate UniqueKeys(c: Counts) {
    forall i, j :: 0 <= i < j < |c| ==> c[i].0 != c[j].0
  }

  /** `counts[name] || 0`. */
  function Get(c: Counts, name: string): (n: nat)
    ensures name !in Keys(c) ==> n == 0
  {
    if c == [] then 0
    else if c[0].0 == name then c[0].1
    else Get(c[1..], name)
  }

  /** A name reads as the count stored at its first occurrence. */
  lemma {:induction false} GetFirst(c: Counts, name: string, i: nat)
    requires i < |c| && c[i].0 == name && name !in Keys(c[..i])
    ensures Get(c, name) == c[i].1
  {
    if i > 0 {
      assert Keys(c[..i])[0] == c[0].0;
      assert c[..i][1..] == c[1..][..i - 1];
      assert Keys(c[..i]) == [c[0].0] + Keys(c[1..][..i - 1]);
      GetFirst(c[1..], name, i - 1);
    }
  }

  /** `counts[name] = (counts[name] || 0) + n`. */
  function Add(c: Counts, name: string, n: nat): (r: Counts)
    ensures Keys(r) == if name in Keys(c) then Keys(c) else Keys(c) + [name]
  {
    if c == [] then [(name, n)]
    else if c[0].0 == name then [(name, c[0].1 + n)] + c[1..]
    else [c[0]] + Add(c[1..], name, n)
  }

  /** Adding to a name adds that name to the set of keys. */
  lemma AddKeySet(c: Counts, name: string, n: nat)
    ensures (set k | k in Keys(Add(c, name, n))) == (set k | k in Keys(c)) + {name}
  {
  }

  function Total(c: Counts): nat {
    if c == [] then 0 else c[0].1 + Total(c[1..])
  }

  /** Adding to one name changes that name's count by `n` and no other. */
  lemma {:induction false} GetAdd(c: Counts, name: string, n: nat, other: string)
    ensures Get(Add(c, name, n), other) == Get(c, other) + (if other == name then n else 0)
  {
    if c != [] && c[0].0 != name {
      GetAdd(c[1..], name, n, other);
    }
  }

  lemma {:induction false} AddTotal(c: Counts, name: string, n: nat)
    ensures Total(Add(c, name, n)) == Total(c) + n
  {
    if c != [] && c[0].0 != name {
      AddTotal(c[1..], name, n);
    }
  }

  lemma AddUnique(c: Counts, name: string, n: nat)
    requires UniqueKeys(c)
    ensures UniqueKeys(Add(c, name, n))
  {
    var r := Add(c, name, n);
    assert forall i :: 0 <= i < |r| ==> r[i].0 == Keys(r)[i];
  }

  /** `Object.values(counts)`. */
  function Values(c: Counts): (vs: seq<nat>)
    ensures |vs| == |c|
    ensures forall i :: 0 <= i < |c| ==> vs[i] == c[i].1
  {
    if c == [] then [] else [c[0].1] + Values(c[1..])
  }

  /** A count read back is one of the stored values, or 0. */
  lemma {:induction false} GetIsValue(c: Counts, name: string)
    ensures Get(c, name) == 0 || exists i :: 0 <= i < |c| && c[i].1 == Get(c, name)
  {
    if c != [] && c[0].0 != name {
      GetIsValue(c[1..], name);
      if Get(c, name) != 0 {
        var i :| 0 <= i < |c| - 1 && c[1..][i].1 == Get(c, name);
        assert c[i + 1].1 == Get(c, name);
      }
    }
  }
}

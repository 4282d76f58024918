/** The named sequence counters of services/backend/models/Counter.js:
    `Counter.next(name)` increments the `seq` of the record called `name`,
    creating it at 0 first, and returns the new value. */
module Counter {
  import opened Wrappers

  datatype CounterError =
    | NameRequired        // `if (!name) throw new Error('Counter name required')`
    | StorageUnavailable  // the store's `findByIdAndUpdate` rejected

  /** The `seq` of counter `name`; a record that does not exist yet counts as
      the schema default 0. */
  function Current(seqs: map<string, int>, name: string): int
  {
    if name in seqs then seqs[name] else 0
  }

  /** The store after one successful `next(name)`. */
  function Bump(seqs: map<string, int>, name: string): (after: map<string, int>)
    ensures Current(after, name) == Current(seqs, name) + 1
    ensures forall other :: other != name ==> Current(after, other) == Current(seqs, other)
    ensures after.Keys == seqs.Keys + {name}
  {
    seqs[name := Current(seqs, name) + 1]
  }

  /** The values returned by successful `next` calls made one after another
      with the given names. */
  function Issued(seqs: map<string, int>, names: seq<string>): (values: seq<int>)
    ensures |values| == |names|
    decreases names
  {
    if names == [] then []
    else [Current(seqs, names[0]) + 1] + Issued(Bump(seqs, names[0]), names[1..])
  }

  /** The store after those calls. */
  function After(seqs: map<string, int>, names: seq<string>): map<string, int>
    decreases names
  {
    if names == [] then seqs else After(Bump(seqs, names[0]), names[1..])
  }

  /** How many of `names` equal `name`. */
  function Occurrences(names: seq<string>, name: string): nat
  {
    if names == [] then 0 else (if names[0] == name then 1 else 0) + Occurrences(names[1..], name)
  }

  /** The k-th call on a name returns that counter's starting value plus k. */
  lemma {:induction false} IssuedAt(seqs: map<string, int>, names: seq<string>, i: nat)
    requires i < |names|
    ensures Issued(seqs, names)[i] == Current(seqs, names[i]) + Occurrences(names[..i + 1], names[i])
    decreases names
  {
    var n := names[i];
    if i == 0 {
      assert names[..1][1..] == [];
    } else {
      var seqs' := Bump(seqs, names[0]);
      IssuedAt(seqs', names[1..], i - 1);
      assert names[1..][i - 1] == n;
      assert names[..i + 1][1..] == names[1..][..i];
    }
  }

  /** Successive `next` calls on the same name return strictly increasing,
      hence pairwise distinct, values, whatever other names are used between them. */
  lemma IssuedStrictlyIncreasing(seqs: map<string, int>, names: seq<string>, i: nat, j: nat)
    requires i < j < |names| && names[i] == names[j]
    ensures Issued(seqs, names)[i] < Issued(seqs, names)[j]
  {
    IssuedAt(seqs, names, i);
    IssuedAt(seqs, names, j);
    OccurrencesGrow(names, i, j);
  }

  lemma {:induction false} OccurrencesGrow(names: seq<string>, i: nat, j: nat)
    requires i < j < |names| && names[i] == names[j]
    ensures Occurrences(names[..i + 1], names[i]) < Occurrences(names[..j + 1], names[i])
  {
    OccurrencesSplit(names[..j + 1], i + 1);
    assert names[..j + 1][..i + 1] == names[..i + 1];
    var tail := names[..j + 1][i + 1..];
    assert tail[|tail| - 1] == names[i];
    OccurrencesLast(tail, names[i]);
  }

  lemma {:induction false} OccurrencesSplit(s: seq<string>, k: nat)
    requires k <= |s|
    ensures forall x :: Occurrences(s, x) == Occurrences(s[..k], x) + Occurrences(s[k..], x)
  {
    if k > 0 {
      OccurrencesSplit(s[1..], k - 1);
      assert s[1..][..k - 1] == s[..k][1..];
      assert s[1..][k - 1..] == s[k..];
    }
  }

  lemma {:induction false} OccurrencesLast(s: seq<string>, x: string)
    requires s != [] && s[|s| - 1] == x
    ensures Occurrences(s, x) >= 1
  {
    if |s| > 1 { OccurrencesLast(s[1..], x); }
  }

  /** A counter none of the calls names keeps its value. */
  lemma {:induction false} AfterLeavesOthers(seqs: map<string, int>, names: seq<string>, other: string)
    requires forall k :: 0 <= k < |names| ==> names[k] != other
    ensures Current(After(seqs, names), other) == Current(seqs, other)
    decreases names
  {
    if names != [] {
      AfterLeavesOthers(Bump(seqs, names[0]), names[1..], other);
    }
  }

  /** The stored counters. */
  class CounterStore {
    var seqs: map<string, int>

    constructor ()
      ensures seqs == map[]
    {
      seqs := map[];
    }

    /** `Counter.next(name)`; `reachable` is false when the store's update
        rejects. A missing name throws before the store is touched. */
    method Next(name: string, reachable: bool) returns (r: Result<int, CounterError>)
      modifies this
      ensures name == "" ==> r == Err(NameRequired)
      ensures name != "" && !reachable ==> r == Err(StorageUnavailable)
      ensures r.Err? ==> seqs == old(seqs)
      ensures r.Ok? ==> r.value == Current(old(seqs), name) + 1 && seqs == Bump(old(seqs), name)
      ensures name != "" && reachable ==> r.Ok?
    {
      if name == "" {
        return Err(NameRequired);
      }
      if !reachable {
        return Err(StorageUnavailable);
      }
      var value := Current(seqs, name) + 1;
      seqs := seqs[name := value];
      r := Ok(value);
    }
  }
}

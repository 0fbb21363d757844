// Study mode's list (Trainer.filterStudy): the whole pool for "ALL",
// otherwise the stimuli whose pair code starts with the chosen letter.

module StudyFilter {
  import opened Pool

  /** `d.pair.startsWith(prefix)`. */
  predicate Matches(d: Stimulus, prefix: string)
  {
    prefix <= d.pair
  }

  /** `data.filter(d => d.pair.startsWith(prefix))`, keeping the pool's order. */
  function WithPrefix(data: seq<Stimulus>, prefix: string): (r: seq<Stimulus>)
    ensures |r| <= |data|
    ensures forall x :: x in r <==> x in data && prefix <= x.pair
  {
    if data == [] then []
    else (if Matches(data[0], prefix) then [data[0]] else []) + WithPrefix(data[1..], prefix)
  }

  /** One step of `filter`: the first stimulus is kept exactly when it matches. */
  lemma WithPrefixCons(d: Stimulus, rest: seq<Stimulus>, prefix: string)
    ensures WithPrefix([d] + rest, prefix) == (if Matches(d, prefix) then [d] else []) + WithPrefix(rest, prefix)
  {
    assert ([d] + rest)[1..] == rest;
  }

  /** `filter` keeps the pool's order: filtering a concatenation filters each part. */
  lemma {:induction false} WithPrefixAppend(a: seq<Stimulus>, b: seq<Stimulus>, prefix: string)
    ensures WithPrefix(a + b, prefix) == WithPrefix(a, prefix) + WithPrefix(b, prefix)
  {
    if a == [] {
      assert a + b == b;
    } else {
      var d, rest := a[0], a[1..];
      assert a == [d] + rest && a + b == [d] + (rest + b);
      WithPrefixCons(d, rest, prefix);
      WithPrefixCons(d, rest + b, prefix);
      WithPrefixAppend(rest, b, prefix);
    }
  }

  /** `filter` keeps every copy of a matching stimulus and no copy of another. */
  lemma {:induction false} WithPrefixCount(data: seq<Stimulus>, prefix: string, x: Stimulus)
    ensures multiset(WithPrefix(data, prefix))[x] == if prefix <= x.pair then multiset(data)[x] else 0
  {
    if data != [] {
      assert data == [data[0]] + data[1..];
      WithPrefixCount(data[1..], prefix, x);
    }
  }

  /** The list the study screen browses for a filter value: the pool for "ALL",
      otherwise exactly the pool items whose pair code starts with the filter. */
  function StudyList(data: seq<Stimulus>, filter: string): (r: seq<Stimulus>)
    ensures filter == "ALL" ==> r == data
    ensures forall x :: x in r ==> x in data
    ensures filter != "ALL" ==> forall x :: x in r <==> x in data && filter <= x.pair
  {
    if filter == "ALL" then data else WithPrefix(data, filter)
  }

  /** When every pair code starts with the filter, nothing is filtered out. */
  lemma {:induction false} AllMatchKeepsPool(data: seq<Stimulus>, prefix: string)
    requires forall i :: 0 <= i < |data| ==> prefix <= data[i].pair
    ensures WithPrefix(data, prefix) == data
  {
    if data != [] {
      AllMatchKeepsPool(data[1..], prefix);
      assert [data[0]] + data[1..] == data;
    }
  }
}

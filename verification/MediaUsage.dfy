/** How one changed asset row moves the count and the bytes of every quota scope. */
module MediaUsage {
  import opened Ordered
  import opened MediaModel

  /** The sum does not depend on which row is taken first. */
  lemma {:induction false} TotalLess(assets: map<nat, Asset>, ids: set<nat>, i: nat)
    requires ids <= assets.Keys && i in ids
    ensures Total(assets, ids) == Usage(assets[i]) + Total(assets, ids - {i})
    decreases |ids|
  {
    var m := Min(ids);
    var rest := ids - {m};
    assert |rest| == |ids| - 1;
    if i != m {
      TotalLess(assets, rest, i);
      assert rest - {i} == ids - {i} - {m};
      assert Min(ids - {i}) == m;
    }
  }

  lemma {:induction false} TotalSame(a: map<nat, Asset>, b: map<nat, Asset>, ids: set<nat>)
    requires ids <= a.Keys && ids <= b.Keys
    requires forall i :: i in ids ==> Usage(a[i]) == Usage(b[i])
    ensures Total(a, ids) == Total(b, ids)
    decreases |ids|
  {
    if ids != {} {
      var rest := ids - {Min(ids)};
      assert |rest| == |ids| - 1;
      TotalSame(a, b, rest);
    }
  }

  /** What one row adds to a scope. */
  function Share(a: Asset, c: Scope): nat { if In(a, c) then Usage(a) else 0 }

  function One(a: Asset, c: Scope): nat { if In(a, c) then 1 else 0 }

  lemma MembersLess(assets: map<nat, Asset>, i: nat, c: Scope)
    requires i in assets
    ensures Members(assets - {i}, c) == Members(assets, c) - {i}
    ensures In(assets[i], c) <==> i in Members(assets, c)
  {}

  /** Removing a row takes its own share away from each scope. */
  lemma Without(assets: map<nat, Asset>, i: nat, c: Scope)
    requires i in assets
    ensures Used(assets, c) == Used(assets - {i}, c) + Share(assets[i], c)
    ensures Count(assets, c) == Count(assets - {i}, c) + One(assets[i], c)
  {
    MembersLess(assets, i, c);
    var all := Members(assets, c);
    TotalSame(assets, assets - {i}, all - {i});
    if i in all {
      TotalLess(assets, all, i);
      assert all == (all - {i}) + {i};
    } else {
      assert all - {i} == all;
    }
  }

  lemma With(assets: map<nat, Asset>, i: nat, x: Asset, c: Scope)
    requires i !in assets
    ensures Used(assets[i := x], c) == Used(assets, c) + Share(x, c)
    ensures Count(assets[i := x], c) == Count(assets, c) + One(x, c)
  {
    assert assets[i := x] - {i} == assets;
    Without(assets[i := x], i, c);
  }

  lemma Changed(assets: map<nat, Asset>, i: nat, x: Asset, c: Scope)
    requires i in assets
    ensures Used(assets[i := x], c) == Used(assets, c) - Share(assets[i], c) + Share(x, c)
    ensures Count(assets[i := x], c) == Count(assets, c) - One(assets[i], c) + One(x, c)
  {
    assert assets[i := x] - {i} == assets - {i};
    Without(assets[i := x], i, c);
    Without(assets, i, c);
  }
}

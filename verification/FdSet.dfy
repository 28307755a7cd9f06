/** The descriptor set given to select and the bounded selection made from it. */
module FdSets {

  const SELECTED_FDS_MAX_COUNT: nat := 10

  // ---------------------------------------------------------------- the selection as a function

  /** The members of `ready` below `hi`, in ascending order. */
  function Ascending(ready: set<int>, hi: nat): seq<int> {
    if hi == 0 then []
    else if hi - 1 in ready then Ascending(ready, hi - 1) + [hi - 1]
    else Ascending(ready, hi - 1)
  }

  lemma {:induction false} AscendingOrder(ready: set<int>, hi: nat)
    ensures var r := Ascending(ready, hi);
            && (forall i :: 0 <= i < |r| ==> 0 <= r[i] < hi && r[i] in ready)
            && (forall i, j :: 0 <= i < j < |r| ==> r[i] < r[j])
            && (forall f :: f in ready && 0 <= f < hi ==> f in r)
  {
    if hi > 0 {
      AscendingOrder(ready, hi - 1);
    }
  }

  function Chosen(ready: set<int>, hi: nat): seq<int> {
    var all := Ascending(ready, hi);
    if |all| <= SELECTED_FDS_MAX_COUNT then all else all[..SELECTED_FDS_MAX_COUNT]
  }

  /** Ready descriptors are chosen in strictly ascending order, ten at most, and one is passed over
      only when ten smaller ones were chosen. */
  lemma ChosenAreTheSmallest(ready: set<int>, hi: nat)
    requires forall f :: f in ready ==> 0 <= f < hi
    ensures var c := Chosen(ready, hi);
            && (forall i, j :: 0 <= i < j < |c| ==> c[i] < c[j])
            && (forall f :: f in c ==> f in ready)
            && |c| == (if |ready| < 10 then |ready| else 10)
            && (forall f :: f in ready && f !in c ==> |c| == 10 && forall g :: g in c ==> g < f)
  {
    var all, c := Ascending(ready, hi), Chosen(ready, hi);
    AscendingCounts(ready, hi);
    AscendingOrder(ready, hi);
    assert ready == Below(ready, hi);
    forall f | f in ready
      ensures f in c || (|c| == 10 && forall g :: g in c ==> g < f)
    {
      var k :| 0 <= k < |all| && all[k] == f;
      if k < |c| {
        assert c[k] == f;
      }
    }
  }

  function Below(ready: set<int>, hi: nat): set<int> {
    set f | f in ready && 0 <= f < hi
  }

  lemma BelowGrows(ready: set<int>, hi: nat)
    ensures Below(ready, hi + 1) == Below(ready, hi) + if hi in ready then {hi} else {}
    ensures |Below(ready, hi + 1)| == |Below(ready, hi)| + if hi in ready then 1 else 0
  {
    assert Below(ready, hi + 1) == Below(ready, hi) + if hi in ready then {hi} else {};
  }

  lemma {:induction false} AscendingCounts(ready: set<int>, hi: nat)
    ensures |Ascending(ready, hi)| == |Below(ready, hi)|
  {
    if hi == 0 {
      assert Below(ready, hi) == {};
    } else {
      AscendingCounts(ready, hi - 1);
      BelowGrows(ready, hi - 1);
    }
  }

  // ---------------------------------------------------------------- the set as an object

  class FDSet {
    var fds: set<int>
    var fdMax: nat
    const selectedFds: array<int>
    var selectedFdsCount: nat

    ghost predicate Valid()
      reads this
    {
      selectedFds.Length == SELECTED_FDS_MAX_COUNT && selectedFdsCount <= SELECTED_FDS_MAX_COUNT
    }

    ghost function Selected(): seq<int>
      reads this, selectedFds
      requires Valid()
    {
      selectedFds[..selectedFdsCount]
    }

    /** fdMax is one more than the largest member. */
    ghost predicate Bounded()
      reads this
    {
      && (forall f :: f in fds ==> 0 <= f < fdMax)
      && (fdMax > 0 ==> fdMax - 1 in fds)
    }

    constructor ()
      ensures Valid() && fresh(selectedFds)
    {
      selectedFds := new int[SELECTED_FDS_MAX_COUNT];
      fds, fdMax, selectedFdsCount := {}, 1, 0;
    }

    method Clear()
      requires Valid()
      modifies this
      ensures Valid() && Bounded() && fds == {} && fdMax == 0
    {
      fds, fdMax := {}, 0;
    }

    method SetFd(f: nat)
      requires Valid() && Bounded()
      modifies this
      ensures Valid() && Bounded() && fds == old(fds) + {f}
    {
      fds := fds + {f};
      if f >= fdMax {
        fdMax := f + 1;
      }
    }

    /** The kernel leaves in the set what is ready; nothing when it times out. */
    method SelectFdSet(ready: set<int>)
      requires Valid() && Bounded() && ready <= fds
      modifies this, selectedFds
      ensures Valid() && fds == ready && fdMax == old(fdMax)
      ensures Selected() == Chosen(ready, fdMax)
    {
      selectedFdsCount := 0;
      fds := ready;
      if ready != {} {
        var i := 0;
        while i < fdMax
          invariant i <= fdMax == old(fdMax) && Valid() && fds == ready
          invariant Selected() == Chosen(ready, i)
        {
          if selectedFdsCount < SELECTED_FDS_MAX_COUNT && i in fds {
            selectedFds[selectedFdsCount] := i;
            selectedFdsCount := selectedFdsCount + 1;
          }
          i := i + 1;
        }
      } else {
        NoneReady(fdMax);
      }
    }
  }

  lemma {:induction false} NoneReady(hi: nat)
    ensures Chosen({}, hi) == []
  {
    if hi > 0 {
      NoneReady(hi - 1);
    }
  }
}

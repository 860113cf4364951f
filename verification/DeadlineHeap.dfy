/** The scheduler's deadline heap: a binary heap of operations in which every operation carries its
    own position, so that it can be taken out from the middle. The sift loops are those of Go's
    `container/heap`, which the source's `deadlineHeap` plugs into. */
module DeadlineHeap {

  type Id = nat

  function Parent(i: nat): nat {
    if i == 0 then 0 else (i - 1) / 2
  }

  /** Position `k` is not due before its parent. */
  predicate Fits(items: seq<Id>, due: map<Id, int>, k: nat)
    requires k < |items| && forall i :: 0 <= i < |items| ==> items[i] in due
  {
    due[items[Parent(k)]] <= due[items[k]]
  }

  predicate Known(items: seq<Id>, due: map<Id, int>) {
    forall i :: 0 <= i < |items| ==> items[i] in due
  }

  /** Heap order on the first `n` positions. */
  predicate HeapOrdered(items: seq<Id>, due: map<Id, int>, n: nat)
    requires n <= |items| && Known(items, due)
  {
    forall k :: 1 <= k < n ==> Fits(items, due, k)
  }

  /** Heap order except between `hole` and its parent, with the children of `hole` still fitting
      under that parent. */
  predicate OrderedBut(items: seq<Id>, due: map<Id, int>, n: nat, hole: nat)
    requires n <= |items| && Known(items, due)
  {
    && (forall k :: 1 <= k < n && k != hole ==> Fits(items, due, k))
    && (forall k :: 1 <= k < n && Parent(k) == hole && hole > 0 ==> due[items[Parent(hole)]] <= due[items[k]])
  }

  /** Heap order except around `hole`, where the value sinks that started at `top`. */
  predicate Sinking(items: seq<Id>, due: map<Id, int>, n: nat, top: nat, hole: nat)
    requires n <= |items| && hole < |items| && Known(items, due)
  {
    && (forall k :: 1 <= k < n && Parent(k) != hole && (k != top || hole != top) ==> Fits(items, due, k))
    && (forall k :: 1 <= k < n && Parent(k) == hole && hole > 0 ==> due[items[Parent(hole)]] <= due[items[k]])
  }

  /** The top of a heap is due first. */
  lemma {:induction false} TopIsFirst(items: seq<Id>, due: map<Id, int>, k: nat)
    requires Known(items, due) && HeapOrdered(items, due, |items|) && k < |items|
    ensures due[items[0]] <= due[items[k]]
    decreases k
  {
    if k > 0 {
      assert Fits(items, due, k);
      TopIsFirst(items, due, Parent(k));
    }
  }

  class Heap {
    var items: seq<Id>
    var due: map<Id, int>      // each operation's deadline
    var index: map<Id, int>    // each operation's own position, -1 once it is out

    /** The positions and the back-pointers agree. */
    ghost predicate Linked()
      reads this
    {
      && Known(items, due)
      && (forall i :: 0 <= i < |items| ==> items[i] in index && index[items[i]] == i)
      && (forall id :: id in index ==> index[id] == -1 || (0 <= index[id] < |items| && items[index[id]] == id))
    }

    ghost predicate Valid()
      reads this
    {
      Linked() && HeapOrdered(items, due, |items|)
    }

    ghost function Contents(): set<Id>
      reads this
    {
      set id | id in items
    }

    /** Being in the heap is the same as having a position. */
    lemma PositionMeansMember(id: Id)
      requires Linked()
      ensures id in Contents() <==> (id in index && index[id] >= 0)
    {
    }

    constructor ()
      ensures Valid() && Contents() == {} && items == [] && due == map[]
    {
      items, due, index := [], map[], map[];
    }

    method Swap(i: nat, j: nat)
      requires Linked() && i < |items| && j < |items|
      modifies this`items, this`index
      ensures Linked() && items == old(items)[i := old(items[j])][j := old(items[i])]
      ensures Contents() == old(Contents()) && index.Keys == old(index.Keys)
    {
      var before := items;
      items := items[i := items[j]][j := items[i]];
      index := index[items[i] := i];
      index := index[items[j] := j];
      assert forall id :: id in before <==> id in items by {
        assert items[i] == before[j] && items[j] == before[i];
        assert forall k :: 0 <= k < |items| && k != i && k != j ==> items[k] == before[k];
      }
    }

    /** `container/heap.up`; `n` bounds the positions whose order is at stake. */
    method Up(start: nat, ghost n: nat)
      requires Linked() && start < n <= |items| && OrderedBut(items, due, n, start)
      modifies this`items, this`index
      ensures Linked() && |items| == old(|items|) && n <= |items| && items[n..] == old(items[n..])
      ensures HeapOrdered(items, due, n)
      ensures Contents() == old(Contents()) && index.Keys == old(index.Keys)
    {
      var j: nat := start;
      while true
        invariant Linked() && j < n <= |items| == old(|items|) && OrderedBut(items, due, n, j)
        invariant Contents() == old(Contents()) && items[n..] == old(items[n..]) && index.Keys == old(index.Keys)
        decreases j
      {
        var i := Parent(j);
        if i == j || due[items[j]] >= due[items[i]] {
          assert forall k :: 1 <= k < n ==> Fits(items, due, k);
          return;
        }
        ghost var before := items;
        Swap(i, j);
        assert items[n..] == before[n..];
        RaiseKeeps(before, items, due, n, j);
        j := i;
      }
    }

    /** `container/heap.down` on the first `n` positions. */
    method Down(start: nat, n: nat) returns (moved: bool)
      requires Linked() && start < n <= |items| && Sinking(items, due, n, start, start)
      modifies this`items, this`index
      ensures Linked() && |items| == old(|items|) && Contents() == old(Contents()) && index.Keys == old(index.Keys)
      ensures items[n..] == old(items[n..])
      ensures moved ==> HeapOrdered(items, due, n)
      ensures !moved ==> items == old(items) && OrderedBut(items, due, n, start)
    {
      hide Sinking, OrderedBut, HeapOrdered;
      var i := start;
      while true
        invariant Linked() && start <= i < n <= |items| == old(|items|) && Sinking(items, due, n, start, i)
        invariant Contents() == old(Contents()) && index.Keys == old(index.Keys)
        invariant items[n..] == old(items[n..])
        invariant i == start ==> items == old(items)
        decreases n - i
      {
        var left := 2 * i + 1;
        if left >= n {
          ChildrenFit(items, due, n, i);
          break;
        }
        var j := left;
        if left + 1 < n && due[items[left + 1]] < due[items[left]] {
          j := left + 1;
        }
        EarlierChild(items, due, n, i, j);
        if due[items[j]] >= due[items[i]] {
          break;
        }
        SinkOnce(start, n, i, j);
        i := j;
      }
      SinkEnds(items, due, n, start, i);
      moved := i > start;
    }

    /** One exchange of `down`. */
    method SinkOnce(ghost start: nat, ghost n: nat, i: nat, j: nat)
      requires Linked() && start <= i < j < n <= |items| && Sinking(items, due, n, start, i)
      requires Parent(j) == i && due[items[j]] < due[items[i]]
      requires forall k :: 1 <= k < n && Parent(k) == i ==> due[items[j]] <= due[items[k]]
      modifies this`items, this`index
      ensures Linked() && |items| == old(|items|) && j < |items| && n <= |items| && Sinking(items, due, n, start, j)
      ensures Contents() == old(Contents()) && index.Keys == old(index.Keys) && items[n..] == old(items[n..])
    {
      ghost var before := items;
      Swap(i, j);
      SinkKeeps(before, items, due, n, start, i, j);
      assert items[n..] == before[n..];
    }

    /** The source's `Pop` method: the last position goes. */
    method DropLast() returns (id: Id)
      requires Linked() && items != []
      modifies this`items, this`index
      ensures Linked() && id == old(items[|items| - 1]) && items == old(items)[..old(|items|) - 1]
      ensures index == old(index)[id := -1] && Contents() == old(Contents()) - {id}
    {
      var last := |items| - 1;
      id := items[last];
      ghost var before := items;
      items := items[..last];
      index := index[id := -1];
      assert before == items + [id];
      assert id !in items;
    }

    method Push(id: Id, deadline: int)
      requires Valid() && id !in Contents()
      modifies this
      ensures Valid() && Contents() == old(Contents()) + {id} && due == old(due)[id := deadline]
      ensures index.Keys == old(index.Keys) + {id}
    {
      assert forall i :: 0 <= i < |items| ==> items[i] != id;
      ghost var before := items;
      index := index[id := |items|];
      due := due[id := deadline];
      items := items + [id];
      forall k | 1 <= k < |before|
        ensures Fits(items, due, k)
      {
        assert Fits(before, old(due), k);
        assert items[k] == before[k] && items[Parent(k)] == before[Parent(k)];
      }
      Up(|items| - 1, |items|);
    }

    /** `heap.Pop`: an operation that is due first. */
    method Pop() returns (id: Id)
      requires Valid() && items != []
      modifies this`items, this`index
      ensures Valid() && id in old(Contents()) && Contents() == old(Contents()) - {id}
      ensures forall other :: other in old(Contents()) ==> other in due && id in due && due[id] <= due[other]
      ensures index.Keys == old(index.Keys)
    {
      var n := |items| - 1;
      forall k | 0 <= k < |items|
        ensures due[items[0]] <= due[items[k]]
      {
        TopIsFirst(items, due, k);
      }
      ghost var before := items;
      Swap(0, n);
      if n > 0 {
        SwapForSink(before, items, due, 0, n);
        var moved := Down(0, n);
      }
      ghost var longer := items;
      id := DropLast();
      PrefixFits(longer, items, due, n);
    }

    /** `heap.Remove`: the operation at position `i`, wherever it is. */
    method Remove(i: nat) returns (id: Id)
      requires Valid() && i < |items|
      modifies this`items, this`index
      ensures Valid() && id == old(items[i]) && Contents() == old(Contents()) - {id} && index.Keys == old(index.Keys)
    {
      var n := |items| - 1;
      ghost var before := items;
      if n != i {
        Swap(i, n);
        SwapForSink(before, items, due, i, n);
        ghost var swapped := items;
        var moved := Down(i, n);
        if !moved {
          Up(i, n);
        }
        assert items[n] == items[n..][0] == swapped[n..][0] == before[i];
      }
      ghost var longer := items;
      id := DropLast();
      PrefixFits(longer, items, due, n);
    }
  }

  lemma RaiseKeeps(before: seq<Id>, items: seq<Id>, due: map<Id, int>, n: nat, j: nat)
    requires Known(before, due) && 1 <= j < n <= |before| && OrderedBut(before, due, n, j)
    requires due[before[j]] < due[before[Parent(j)]]
    requires items == before[Parent(j) := before[j]][j := before[Parent(j)]]
    ensures Known(items, due) && OrderedBut(items, due, n, Parent(j))
  {
    var i := Parent(j);
    forall k | 1 <= k < n && k != i
      ensures Fits(items, due, k)
    {
      assert k != j ==> Fits(before, due, k);
    }
    forall k | 1 <= k < n && Parent(k) == i && i > 0
      ensures due[items[Parent(i)]] <= due[items[k]]
    {
      assert Fits(before, due, i);
      assert k != j ==> Fits(before, due, k);
    }
  }

  /** Where the value stops sinking the order is whole again, except perhaps above the start. */
  lemma SinkEnds(items: seq<Id>, due: map<Id, int>, n: nat, top: nat, i: nat)
    requires top <= i < n <= |items| && Known(items, due) && Sinking(items, due, n, top, i)
    requires forall k :: 1 <= k < n && Parent(k) == i ==> due[items[i]] <= due[items[k]]
    ensures i > top ==> HeapOrdered(items, due, n)
    ensures i == top ==> OrderedBut(items, due, n, top)
  {
  }

  lemma ChildrenFit(items: seq<Id>, due: map<Id, int>, n: nat, i: nat)
    requires n <= |items| && 2 * i + 1 >= n
    ensures forall k :: 1 <= k < n ==> Parent(k) != i
  {
  }

  /** Of two children the one due earlier, as `down` picks it. */
  lemma EarlierChild(items: seq<Id>, due: map<Id, int>, n: nat, i: nat, j: nat)
    requires n <= |items| && Known(items, due) && 2 * i + 1 < n
    requires j == if 2 * i + 2 < n && due[items[2 * i + 2]] < due[items[2 * i + 1]] then 2 * i + 2 else 2 * i + 1
    ensures Parent(j) == i && forall k :: 1 <= k < n && Parent(k) == i ==> due[items[j]] <= due[items[k]]
  {
    forall k | 1 <= k < n && Parent(k) == i
      ensures k == 2 * i + 1 || k == 2 * i + 2
    {
    }
  }

  lemma PrefixFits(longer: seq<Id>, items: seq<Id>, due: map<Id, int>, n: nat)
    requires Known(longer, due) && n <= |longer| && HeapOrdered(longer, due, n) && items == longer[..n]
    ensures Known(items, due) && HeapOrdered(items, due, n)
  {
    forall k | 1 <= k < n
      ensures Fits(items, due, k)
    {
      assert Fits(longer, due, k);
    }
  }

  lemma SinkKeeps(before: seq<Id>, items: seq<Id>, due: map<Id, int>, n: nat, top: nat, i: nat, j: nat)
    requires Known(before, due) && top <= i < n <= |before| && Sinking(before, due, n, top, i)
    requires 1 <= j < n && Parent(j) == i && due[before[j]] < due[before[i]]
    requires forall k :: 1 <= k < n && Parent(k) == i ==> due[before[j]] <= due[before[k]]
    requires items == before[i := before[j]][j := before[i]]
    ensures Known(items, due) && Sinking(items, due, n, top, j)
  {
    forall k | 1 <= k < n && Parent(k) != j && (k != top || j != top)
      ensures Fits(items, due, k)
    {
      if Parent(k) != i && k != i {
        assert Fits(before, due, k);
      }
    }
    forall k | 1 <= k < n && Parent(k) == j
      ensures due[items[Parent(j)]] <= due[items[k]]
    {
      assert Fits(before, due, k);
    }
  }

  /** Moving the last position into position `i` of a heap leaves only `i` in doubt. */
  lemma SwapForSink(before: seq<Id>, items: seq<Id>, due: map<Id, int>, i: nat, n: nat)
    requires Known(before, due) && HeapOrdered(before, due, |before|) && i < n == |before| - 1
    requires items == before[i := before[n]][n := before[i]]
    ensures Known(items, due) && Sinking(items, due, n, i, i)
  {
    forall k | 1 <= k < n && Parent(k) != i && k != i
      ensures Fits(items, due, k)
    {
      assert Fits(before, due, k);
    }
    forall k | 1 <= k < n && Parent(k) == i && i > 0
      ensures due[items[Parent(i)]] <= due[items[k]]
    {
      assert Fits(before, due, k) && Fits(before, due, i);
    }
  }
}

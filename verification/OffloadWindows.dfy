/** The window map of the activation offloader: the model commit at which each group's copy must be finished. */
module OffloadWindows {

  function Min(a: int, b: int): int {
    if a <= b then a else b
  }

  /** Closed form of the window map: the end of the (i+1)-st of `groups` balanced slices of 0..layers-1. */
  function Window(layers: nat, groups: nat, i: nat): int
    requires groups > 0
  {
    (layers / groups) * (i + 1) + Min(i + 1, layers % groups) - 1
  }

  /** The map the constructor's loop builds, with the loop's running `constant`, is the closed form. */
  method BuildWindowMap(layers: nat, groups: nat) returns (windows: map<int, int>)
    ensures forall i :: i in windows <==> 0 <= i < groups
    ensures forall i :: 0 <= i < groups ==> windows[i] == Window(layers, groups, i)
  {
    windows := map[];
    var constant := 0;
    for i := 0 to groups
      invariant forall j :: j in windows <==> 0 <= j < i
      invariant forall j :: 0 <= j < i ==> windows[j] == Window(layers, groups, j)
      invariant groups > 0 ==> constant == Min(i, layers % groups)
    {
      windows := windows[i := (layers / groups) * (i + 1) - 1];
      if i < layers % groups {
        windows := windows[i := windows[i] + i + 1];
        constant := i + 1;
      } else {
        windows := windows[i := windows[i] + constant];
      }
    }
  }

  /** Windows grow by at least one each, so `Window(i) - i` never shrinks. */
  lemma {:induction false} WindowSlackGrows(layers: nat, groups: nat, i: nat, j: nat)
    requires 1 <= groups <= layers && i <= j
    ensures Window(layers, groups, i) + (j - i) <= Window(layers, groups, j)
    decreases j - i
  {
    if i < j {
      WindowSlackGrows(layers, groups, i, j - 1);
    }
  }

  /** The windows are balanced: each comes `layers / groups` commits after the one before, or, for the first
      `layers % groups` of them, one more. */
  lemma WindowGaps(layers: nat, groups: nat, i: nat)
    requires 1 <= groups && i < groups
    ensures Window(layers, groups, i) - (if i == 0 then -1 else Window(layers, groups, i - 1)) ==
            layers / groups + if i < layers % groups then 1 else 0
  {
    if i > 0 {
      assert (layers / groups) * (i + 1) == (layers / groups) * i + layers / groups;
    }
  }

  lemma WindowLast(layers: nat, groups: nat)
    requires 1 <= groups
    ensures Window(layers, groups, groups - 1) == layers - 1
  {
    assert layers == (layers / groups) * groups + layers % groups;
  }

  /** Every group is complete before its window opens; and strictly before, for every group, exactly when some
      group of the model is never offloaded. */
  lemma WindowAfterGroup(layers: nat, groups: nat)
    requires 1 <= groups <= layers
    ensures forall i: nat :: i < groups ==> i <= Window(layers, groups, i) <= i + layers - groups
    ensures (forall i: nat :: i < groups ==> i + 1 <= Window(layers, groups, i)) <==> groups < layers
  {
    WindowLast(layers, groups);
    assert Window(layers, groups, 0) >= 0;
    if groups < layers {
      if layers / groups == 1 {
        assert layers % groups >= 1;
      }
      assert Window(layers, groups, 0) >= 1;
    }
    forall i: nat | i < groups
      ensures i <= Window(layers, groups, i) <= i + layers - groups
      ensures groups < layers ==> i + 1 <= Window(layers, groups, i)
    {
      WindowSlackGrows(layers, groups, 0, i);
      WindowSlackGrows(layers, groups, i, groups - 1);
    }
    if groups == layers {
      assert Window(layers, groups, groups - 1) == groups - 1;
    }
  }

  /** How many of the first `n` windows lie before model commit `k`. */
  function WindowsBefore(layers: nat, groups: nat, n: nat, k: int): (c: nat)
    requires groups > 0
    ensures c <= n
  {
    if n == 0 then 0
    else WindowsBefore(layers, groups, n - 1, k) + if Window(layers, groups, n - 1) < k then 1 else 0
  }

  /** The windows before `k` are exactly the first `WindowsBefore` ones. */
  lemma {:induction false} WindowsBeforeIsPrefix(layers: nat, groups: nat, n: nat, k: int)
    requires 1 <= groups <= layers
    ensures forall i: nat :: i < n ==> (i < WindowsBefore(layers, groups, n, k) <==> Window(layers, groups, i) < k)
  {
    if n > 0 {
      WindowsBeforeIsPrefix(layers, groups, n - 1, k);
      if Window(layers, groups, n - 1) < k {
        forall i: nat | i < n - 1
          ensures Window(layers, groups, i) < k
        {
          WindowSlackGrows(layers, groups, i, n - 1);
        }
        var c := WindowsBefore(layers, groups, n - 1, k);
        var w := Window(layers, groups, c);
      }
    }
  }

  /** Every model commit is at, or strictly after, at most one window; there `WindowsBefore` steps by one. */
  lemma WindowsBeforeStep(layers: nat, groups: nat, k: int)
    requires 1 <= groups <= layers
    ensures var n := WindowsBefore(layers, groups, groups, k);
            WindowsBefore(layers, groups, groups, k + 1) ==
            if n < groups && Window(layers, groups, n) == k then n + 1 else n
  {
    var n := WindowsBefore(layers, groups, groups, k);
    var m := WindowsBefore(layers, groups, groups, k + 1);
    WindowsBeforeIsPrefix(layers, groups, groups, k);
    WindowsBeforeIsPrefix(layers, groups, groups, k + 1);
    if n < groups && n + 1 < groups {
      WindowSlackGrows(layers, groups, n, n + 1);
    }
    var atM, atN, past := Window(layers, groups, m), Window(layers, groups, n), Window(layers, groups, n + 1);
  }

  lemma WindowsBeforeEnds(layers: nat, groups: nat)
    requires 1 <= groups <= layers
    ensures WindowsBefore(layers, groups, groups, 0) == 0
    ensures WindowsBefore(layers, groups, groups, layers) == groups
  {
    WindowsBeforeIsPrefix(layers, groups, groups, 0);
    WindowsBeforeIsPrefix(layers, groups, groups, layers);
    WindowAfterGroup(layers, groups);
    var c := WindowsBefore(layers, groups, groups, 0);
    var first := Window(layers, groups, 0);
    var m := WindowsBefore(layers, groups, groups, layers);
    WindowLast(layers, groups);
    WindowSlackGrows(layers, groups, Min(m, groups - 1), groups - 1);
  }
}

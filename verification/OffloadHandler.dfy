/** The handler object itself: its fields, updated in place, follow the state machine of module Offload. */
module OffloadHandler {
  import opened Wrappers
  import opened OffloadWindows
  import opened StreamOrder
  import opened Offload
  import OffloadRuns

  class AsyncDoubleBufferGroupOffloadHandler {
    const numOffloadGroup: nat
    const numLayers: nat
    var currentGroup: int
    var tensorCountCurrentGroup: nat
    var tensorTagToState: map<Tag, Saved>
    var tensorTagToBuf: map<Tag, Option<Tensor>>
    var offloadedGroupCount: int
    var layerWindowMap: map<int, int>
    var groupOffloadMapping: map<int, map<Key, seq<int>>>
    var timeline: seq<Event<Action>>  // what was enqueued on the device streams, in host order

    ghost function Abs(): Handler
      reads this
    {
      Handler(currentGroup, tensorCountCurrentGroup, tensorTagToState, tensorTagToBuf, offloadedGroupCount,
              groupOffloadMapping, timeline)
    }

    constructor (numOffloadGroup: nat, numModelGroup: nat)
      ensures Abs() == INITIAL
      ensures this.numOffloadGroup == numOffloadGroup && this.numLayers == numModelGroup
      ensures numOffloadGroup > 0 ==> layerWindowMap == Config(numModelGroup, numOffloadGroup).WindowMap()
    {
      this.numOffloadGroup, this.numLayers := numOffloadGroup, numModelGroup;
      currentGroup, tensorCountCurrentGroup, tensorTagToState, tensorTagToBuf := 0, 0, map[], map[];
      offloadedGroupCount, groupOffloadMapping, timeline := 0, map[], [];
      layerWindowMap := map[];
      new;
      layerWindowMap := BuildWindowMap(numModelGroup, numOffloadGroup);
    }

    method TensorPush(tensor: Tensor, needOffload: bool) returns (handle: Handle)
      requires Push(numOffloadGroup, Abs(), tensor, needOffload).Some?  // the tag is not in use
      modifies this`tensorCountCurrentGroup, this`tensorTagToState, this`tensorTagToBuf, this`timeline
      ensures Push(numOffloadGroup, old(Abs()), tensor, needOffload) == Some((handle, Abs()))
    {
      if needOffload {
        var tag := Tag(currentGroup, tensorCountCurrentGroup);
        tensorCountCurrentGroup := tensorCountCurrentGroup + 1;
        tensorTagToState := tensorTagToState[tag := OnDevice(tensor)];
        if currentGroup < numOffloadGroup {
          tensorTagToBuf := tensorTagToBuf[tag := Some(tensor)];
        }
        timeline := timeline + [Work(Compute, Produce(tag))];
        handle := Tagged(tag);
      } else {
        handle := Stray(tensor);
      }
    }

    method TensorPop(handle: Handle) returns (tensor: Tensor)
      requires Pop(Abs(), handle).Some?  // the tag is in use and its tensor is on the device
      modifies this`tensorTagToState, this`tensorTagToBuf, this`timeline
      ensures Pop(old(Abs()), handle) == Some((tensor, Abs()))
    {
      match handle
      case Stray(t) => tensor := t;
      case Tagged(tag) =>
        tensor := tensorTagToState[tag].tensor;
        tensorTagToState := tensorTagToState - {tag};
        tensorTagToBuf := tensorTagToBuf - {tag};
        timeline := timeline + [Work(Compute, Use(tag))];
    }

    /** First loop of the bulk offload: one tensor per storage key is collected, the tags keep (key, shape). */
    method LeaveGroupOnHost(groupToOffload: int) returns (offloadMapping: map<Key, Tensor>)
      requires CanOffload(tensorTagToState, groupToOffload)
      modifies this`tensorTagToState
      ensures tensorTagToState == LeaveOnHost(old(tensorTagToState), groupToOffload)
      ensures forall t :: t in GroupTags(old(tensorTagToState), groupToOffload) ==>
                            old(tensorTagToState)[t].tensor.key in offloadMapping
      ensures forall k :: k in offloadMapping ==>
                            exists t :: Holds(old(tensorTagToState), groupToOffload, t, k, offloadMapping[k].flat)
    {
      ghost var states := tensorTagToState;
      offloadMapping := map[];
      var todo := tensorTagToState.Keys;
      while todo != {}
        invariant todo <= states.Keys && tensorTagToState.Keys == states.Keys
        invariant forall t :: t in todo ==> tensorTagToState[t] == states[t]
        invariant forall t :: t in states && t !in todo ==>
                  tensorTagToState[t] == LeaveOnHost(states, groupToOffload)[t]
        invariant forall t :: t in GroupTags(states, groupToOffload) && t !in todo ==>
                  states[t].tensor.key in offloadMapping
        invariant forall k :: k in offloadMapping ==>
                                exists t :: Holds(states, groupToOffload, t, k, offloadMapping[k].flat)
        decreases |todo|
      {
        var tag :| tag in todo;
        todo := todo - {tag};
        if tag.group == groupToOffload {
          assert tag in GroupTags(states, groupToOffload);
          var t := tensorTagToState[tag].tensor;
          if t.key !in offloadMapping {
            assert Holds(states, groupToOffload, tag, t.key, t.flat);
            offloadMapping := offloadMapping[t.key := t];
          }
          tensorTagToState := tensorTagToState[tag := OnHost(t.key, t.shape)];
        }
      }
    }

    method BulkOffloadGroup(groupToOffload: int)
      requires CanOffload(tensorTagToState, groupToOffload) && KeysAgree(tensorTagToState, groupToOffload)
      modifies this`tensorTagToState, this`groupOffloadMapping, this`timeline
      ensures BulkOffload(old(Abs()), groupToOffload) == Some(Abs())
    {
      var offloadMapping := LeaveGroupOnHost(groupToOffload);
      var hostCopies := map k | k in offloadMapping :: offloadMapping[k].flat;
      HostCopiesUnique(old(tensorTagToState), groupToOffload, hostCopies);
      timeline := timeline + [Work(D2H, CopyOut(groupToOffload, GroupTags(tensorTagToState, groupToOffload)))];
      groupOffloadMapping := groupOffloadMapping[groupToOffload := hostCopies];
      OffloadDone(old(Abs()), groupToOffload, Abs());
    }

    method SynchronizeOnGroupCommitForward()
      requires numOffloadGroup > 0 && layerWindowMap == Config(numLayers, numOffloadGroup).WindowMap()
      requires CommitForward(numOffloadGroup, layerWindowMap, Abs()).Some?
      requires forall g :: KeysAgree(tensorTagToState, g)
      modifies this`tensorTagToState, this`tensorTagToBuf, this`offloadedGroupCount, this`groupOffloadMapping,
               this`timeline
      ensures CommitForward(numOffloadGroup, layerWindowMap, old(Abs())) ==
              Some(Abs().(current := currentGroup + 1, tensorCount := 0))
    {
      hide BulkOffload, ReleaseGroup, KeysAgree, LeaveOnHost, Window;
      ghost var start := Abs();
      if currentGroup == 0 {
        timeline := timeline + [Wait(D2H, Compute)];
        BulkOffloadChanges(Abs(), 0);
        BulkOffloadGroup(0);
      }
      assert Kickstart(start) == Some(Abs());
      ghost var kicked := Abs();
      assert forall g :: KeysAgree(tensorTagToState, g);
      if layerWindowMap[offloadedGroupCount] == currentGroup {
        timeline := timeline + [Wait(D2H, Compute), Wait(Compute, D2H)];
        ReleaseBuffers(offloadedGroupCount);
        assert Abs() == HandOver(kicked);
        if offloadedGroupCount < numOffloadGroup - 1 {
          BulkOffloadChanges(Abs(), offloadedGroupCount + 1);
          BulkOffloadGroup(offloadedGroupCount + 1);
        }
        offloadedGroupCount := offloadedGroupCount + 1;
        assert AtWindow(numOffloadGroup, kicked) == Some(Abs());
      }
    }

    method ReleaseBuffers(group: int)
      modifies this`tensorTagToBuf, this`timeline
      ensures tensorTagToBuf == ReleaseGroup(old(tensorTagToBuf), group)
      ensures timeline == old(timeline) + [Work(Compute, Release(GroupTags(old(tensorTagToBuf), group)))]
    {
      ghost var bufs := tensorTagToBuf;
      var todo := tensorTagToBuf.Keys;
      var released := {};
      while todo != {}
        invariant todo <= bufs.Keys && tensorTagToBuf.Keys == bufs.Keys
        invariant forall t :: t in todo ==> tensorTagToBuf[t] == bufs[t]
        invariant forall t :: t in bufs && t !in todo ==> tensorTagToBuf[t] == ReleaseGroup(bufs, group)[t]
        invariant released == GroupTags(bufs, group) - todo
        decreases |todo|
        modifies this`tensorTagToBuf
      {
        var tag :| tag in todo;
        todo := todo - {tag};
        if tag.group == group {
          tensorTagToBuf := tensorTagToBuf[tag := None];
          released := released + {tag};
        }
      }
      assert released == GroupTags(bufs, group);
      timeline := timeline + [Work(Compute, Release(released))];
    }

    method OnGroupCommitForward()
      requires numOffloadGroup > 0 && layerWindowMap == Config(numLayers, numOffloadGroup).WindowMap()
      requires CommitForward(numOffloadGroup, layerWindowMap, Abs()).Some?
      requires forall g :: KeysAgree(tensorTagToState, g)
      modifies this
      ensures layerWindowMap == old(layerWindowMap)
      ensures CommitForward(numOffloadGroup, layerWindowMap, old(Abs())) == Some(Abs())
    {
      SynchronizeOnGroupCommitForward();
      currentGroup := currentGroup + 1;
      tensorCountCurrentGroup := 0;
    }

    method BulkReloadGroup(groupToReload: int)
      requires BulkReload(numOffloadGroup, Abs(), groupToReload).Some?
      modifies this`tensorTagToState, this`groupOffloadMapping, this`timeline
      ensures BulkReload(numOffloadGroup, old(Abs()), groupToReload) == Some(Abs())
    {
      var offloadMapping := groupOffloadMapping[groupToReload];
      groupOffloadMapping := groupOffloadMapping - {groupToReload};
      var reloaded;
      tensorTagToState, reloaded := RestoreTags(tensorTagToState, offloadMapping, groupToReload);
      timeline := timeline + [Work(H2D, CopyIn(groupToReload, reloaded))];
      ReloadDone(numOffloadGroup, old(Abs()), groupToReload, Abs());
    }

    method OnGroupCommitBackward()
      requires CommitBackward(numOffloadGroup, layerWindowMap, Abs()).Some?
      modifies this`currentGroup, this`tensorTagToState, this`groupOffloadMapping, this`offloadedGroupCount,
               this`timeline
      ensures CommitBackward(numOffloadGroup, layerWindowMap, old(Abs())) == Some(Abs())
    {
      currentGroup := currentGroup - 1;
      ghost var h1 := Abs();
      if layerWindowMap[offloadedGroupCount - 1] == currentGroup {
        timeline := timeline + [Wait(H2D, Compute), Wait(Compute, H2D)];
        BulkReloadGroup(offloadedGroupCount - 1);
        offloadedGroupCount := offloadedGroupCount - if offloadedGroupCount > 1 then 1 else 0;
        assert ReloadAtWindow(numOffloadGroup, h1) == Some(Abs());
      }
      if currentGroup == 0 {
        timeline := timeline + [Wait(Compute, H2D)];
        offloadedGroupCount := 0;
      }
    }
  }

  /** The loop of the bulk reload: every tag of the group left on the host gets its tensor back. */
  method RestoreTags(states: map<Tag, Saved>, offloadMapping: map<Key, seq<int>>, groupToReload: int)
    returns (result: map<Tag, Saved>, reloaded: set<Tag>)
    requires CanReload(states, offloadMapping, groupToReload)
    ensures reloaded == HostTags(states, groupToReload)
    ensures result == Restore(states, offloadMapping, reloaded)
  {
    hide Restore, BringBack;
    result, reloaded := states, {};
    RestoreNone(states, offloadMapping);
    var todo := HostTags(states, groupToReload);
    while todo != {}
      invariant todo + reloaded == HostTags(states, groupToReload) && todo !! reloaded
      invariant result == Restore(states, offloadMapping, reloaded)
      decreases |todo|
    {
      var tag :| tag in todo;
      RestoreOneMore(states, offloadMapping, reloaded, tag);
      result := result[tag := BringBack(result[tag], offloadMapping)];
      todo, reloaded := todo - {tag}, reloaded + {tag};
    }
  }

  lemma RestoreNone(states: map<Tag, Saved>, copies: map<Key, seq<int>>)
    ensures Restore(states, copies, {}) == states
  {
  }

  lemma RestoreOneMore(states: map<Tag, Saved>, copies: map<Key, seq<int>>, tags: set<Tag>, tag: Tag)
    requires forall t :: t in tags + {tag} ==> t in states && states[t].OnHost? && states[t].key in copies
    requires tag !in tags
    ensures tag in Restore(states, copies, tags) && Restore(states, copies, tags)[tag] == states[tag]
    ensures Restore(states, copies, tags)[tag := BringBack(states[tag], copies)] ==
            Restore(states, copies, tags + {tag})
  {
  }

  lemma OffloadDone(h: Handler, group: int, h': Handler)
    requires CanOffload(h.states, group)
    requires h'.states == LeaveOnHost(h.states, group)
    requires h'.copies == h.copies[group := HostCopies(h.states, group)]
    requires h'.log == h.log + [Work(D2H, CopyOut(group, GroupTags(h'.states, group)))]
    requires h'.current == h.current && h'.tensorCount == h.tensorCount && h'.bufs == h.bufs &&
             h'.offloaded == h.offloaded
    ensures BulkOffload(h, group) == Some(h')
  {
    assert GroupTags(h'.states, group) == GroupTags(h.states, group);
  }

  lemma ReloadDone(groups: nat, h: Handler, group: int, h': Handler)
    requires BulkReload(groups, h, group).Some?
    requires h'.states == Restore(h.states, h.copies[group], HostTags(h.states, group)) &&
             h'.copies == h.copies - {group}
    requires h'.log == h.log + [Work(H2D, CopyIn(group, HostTags(h.states, group)))]
    requires h'.current == h.current && h'.tensorCount == h.tensorCount && h'.bufs == h.bufs &&
             h'.offloaded == h.offloaded
    ensures BulkReload(groups, h, group) == Some(h')
  {
  }

  /** When tensors sharing a key agree, there is only one collection of host copies. */
  lemma HostCopiesUnique(states: map<Tag, Saved>, group: int, copies: map<Key, seq<int>>)
    requires KeysAgree(states, group) && AreHostCopies(copies, states, group)
    ensures copies == HostCopies(states, group)
  {
    hide HostCopies, KeysAgree;
    var other := HostCopies(states, group);
    forall k | k in copies
      ensures k in other && copies[k] == other[k]
    {
      CopiesAgree(states, group, copies, other, k);
    }
  }

  lemma CopiesAgree(states: map<Tag, Saved>, group: int, a: map<Key, seq<int>>, b: map<Key, seq<int>>, k: Key)
    requires KeysAgree(states, group) && k in a && k in b
    requires AreHostCopies(a, states, group) && AreHostCopies(b, states, group)
    ensures a[k] == b[k]
  {
    var t :| Holds(states, group, t, k, a[k]);
    var u :| Holds(states, group, u, k, b[k]);
  }

  /** What a bulk offload leaves alone, and that it cannot make tensors sharing a key disagree. */
  lemma BulkOffloadChanges(h: Handler, group: int)
    requires BulkOffload(h, group).Some?
    requires forall g :: KeysAgree(h.states, g)
    ensures CanOffload(h.states, group)
    ensures var h' := BulkOffload(h, group).value;
            && h'.current == h.current && h'.offloaded == h.offloaded && h'.tensorCount == h.tensorCount
            && forall g :: KeysAgree(h'.states, g)
  {
    hide HostCopies, KeysAgree;
    LeavingKeepsAgreement(h.states, group);
  }

  lemma LeavingKeepsAgreement(states: map<Tag, Saved>, group: int)
    requires forall g :: KeysAgree(states, g)
    ensures forall g :: KeysAgree(LeaveOnHost(states, group), g)
  {
    forall g
      ensures KeysAgree(LeaveOnHost(states, group), g)
    {
      assert KeysAgree(states, g);
    }
  }

  /** In every state autograd can reach, the preconditions of the commits' loops hold. */
  lemma ReachableTensorsAgree(c: Config, w: OffloadRuns.World)
    requires c.Valid() && OffloadRuns.Inv(c, w) && w.phase.Forward?
    ensures forall g :: KeysAgree(w.h.states, g)
  {
  }
}

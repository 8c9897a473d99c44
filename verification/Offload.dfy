/** The asynchronous activation offloader as a state machine over values: what each hook does to the handler. */
module Offload {
  import opened Wrappers
  import opened OffloadWindows
  import opened StreamOrder

  /** Identity of a tensor's storage and dtype. `Reloaded(k)` names the storage a reload allocates for key `k`. */
  datatype Key = Storage(address: int, dtype: int) | Reloaded(of: Key)

  /** A device tensor: where it lives, its elements in order, and the shape it is viewed with. */
  datatype Tensor = Tensor(key: Key, flat: seq<int>, shape: seq<nat>)

  datatype Tag = Tag(group: nat, index: nat)

  /** What `tensor_push` hands to autograd: a tag, or the tensor itself when it is not to be offloaded. */
  datatype Handle = Tagged(tag: Tag) | Stray(tensor: Tensor)

  /** What the handler keeps under a tag: the tensor, or the (key, shape) pair left behind by an offload. */
  datatype Saved = OnDevice(tensor: Tensor) | OnHost(key: Key, shape: seq<nat>)

  /** Work the handler's hooks stand for on the device streams, by the tags it touches. */
  datatype Action =
    | Produce(tag: Tag)                    // the forward computation wrote the tensor
    | CopyOut(group: int, tags: set<Tag>)  // device-to-host copies of one group
    | Release(tags: set<Tag>)              // the group's buffers may be reused from here on
    | CopyIn(group: int, tags: set<Tag>)   // host-to-device copies of one group
    | Use(tag: Tag)                        // the backward computation reads the tensor

  datatype Config = Config(layers: nat, groups: nat) {
    /** The constructor's documented condition: no more offload groups than commits. */
    predicate Valid() { 1 <= groups <= layers }

    function WindowMap(): map<int, int>
      requires groups > 0
    {
      map i | 0 <= i < groups :: Window(layers, groups, i)
    }
  }

  datatype Handler = Handler(
    current: int,
    tensorCount: nat,
    states: map<Tag, Saved>,
    bufs: map<Tag, Option<Tensor>>,
    offloaded: int,
    copies: map<int, map<Key, seq<int>>>,
    log: seq<Event<Action>>)

  const INITIAL: Handler := Handler(0, 0, map[], map[], 0, map[], [])

  function Product(shape: seq<nat>): nat {
    if shape == [] then 1 else shape[0] * Product(shape[1..])
  }

  /** Same elements, same shape: what the backward pass can observe of a tensor. */
  predicate SameValue(a: Tensor, b: Tensor) {
    a.flat == b.flat && a.shape == b.shape
  }

  function GroupTags<V>(m: map<Tag, V>, group: int): set<Tag> {
    set t | t in m && t.group == group
  }

  /** Tensors of one group that share a storage key hold the same elements. */
  ghost predicate KeysAgree(states: map<Tag, Saved>, group: int) {
    forall t, u :: t in GroupTags(states, group) && u in GroupTags(states, group) &&
                   states[t].OnDevice? && states[u].OnDevice? && states[t].tensor.key == states[u].tensor.key ==>
                   states[t].tensor.flat == states[u].tensor.flat
  }

  function Issue(h: Handler, events: seq<Event<Action>>): Handler {
    h.(log := h.log + events)
  }

  // ----- tensor_push, tensor_pop -----

  function Push(groups: nat, h: Handler, t: Tensor, needOffload: bool): Option<(Handle, Handler)> {
    if !needOffload then Some((Stray(t), h))
    else if h.current < 0 then None
    else
      var tag := Tag(h.current, h.tensorCount);
      if tag in h.states then None
      else
        var h1 := h.(tensorCount := h.tensorCount + 1, states := h.states[tag := OnDevice(t)]);
        var h2 := if h.current < groups then h1.(bufs := h1.bufs[tag := Some(t)]) else h1;
        Some((Tagged(tag), Issue(h2, [Work(Compute, Produce(tag))])))
  }

  function Pop(h: Handler, handle: Handle): Option<(Tensor, Handler)> {
    match handle
    case Stray(t) => Some((t, h))
    case Tagged(tag) =>
      if tag !in h.states || h.states[tag].OnHost? then None
      else
        var h1 := h.(states := h.states - {tag}, bufs := h.bufs - {tag});
        Some((h.states[tag].tensor, Issue(h1, [Work(Compute, Use(tag))])))
  }

  // ----- forward commit -----

  function GroupKeys(states: map<Tag, Saved>, group: int): set<Key> {
    set t | t in GroupTags(states, group) && states[t].OnDevice? :: states[t].tensor.key
  }

  ghost predicate Holds(states: map<Tag, Saved>, group: int, t: Tag, key: Key, flat: seq<int>) {
    t in GroupTags(states, group) && states[t].OnDevice? && states[t].tensor.key == key && states[t].tensor.flat == flat
  }

  /** One host copy per distinct storage key of the group, of some tensor of the group with that key. */
  ghost predicate AreHostCopies(copies: map<Key, seq<int>>, states: map<Tag, Saved>, group: int) {
    && copies.Keys == GroupKeys(states, group)
    && forall key :: key in copies ==> exists t :: Holds(states, group, t, key, copies[key])
  }

  ghost function Holder(states: map<Tag, Saved>, group: int, key: Key): (t: Tag)
    requires key in GroupKeys(states, group)
    ensures t in GroupTags(states, group) && states[t].OnDevice? && states[t].tensor.key == key
  {
    var t :| t in GroupTags(states, group) && states[t].OnDevice? && states[t].tensor.key == key;
    t
  }

  ghost function HostCopies(states: map<Tag, Saved>, group: int): (copies: map<Key, seq<int>>)
    ensures AreHostCopies(copies, states, group)
  {
    ghost var m := map key | key in GroupKeys(states, group) :: states[Holder(states, group, key)].tensor.flat;
    assert forall key :: key in m ==> Holds(states, group, Holder(states, group, key), key, m[key]);
    assert AreHostCopies(m, states, group);
    var copies :| AreHostCopies(copies, states, group);
    copies
  }

  function LeaveOnHost(states: map<Tag, Saved>, group: int): map<Tag, Saved> {
    map t | t in states ::
      if t.group == group && states[t].OnDevice? then OnHost(states[t].tensor.key, states[t].tensor.shape)
      else states[t]
  }

  predicate CanOffload(states: map<Tag, Saved>, group: int) {
    forall t :: t in GroupTags(states, group) ==> states[t].OnDevice?
  }

  ghost function BulkOffload(h: Handler, group: int): Option<Handler>
  {
    if !CanOffload(h.states, group) then None
    else
      Some(Issue(h.(states := LeaveOnHost(h.states, group), copies := h.copies[group := HostCopies(h.states, group)]),
                 [Work(D2H, CopyOut(group, GroupTags(h.states, group)))]))
  }

  function ReleaseGroup(bufs: map<Tag, Option<Tensor>>, group: int): map<Tag, Option<Tensor>> {
    map t | t in bufs :: if t.group == group then None else bufs[t]
  }

  /** The first commit starts copying group 0. */
  ghost function Kickstart(h: Handler): Option<Handler> {
    if h.current != 0 then Some(h) else BulkOffload(Issue(h, [Wait(D2H, Compute)]), 0)
  }

  /** At its window a group's copy is waited for and its buffers are released ... */
  function HandOver(h: Handler): Handler {
    h.(bufs := ReleaseGroup(h.bufs, h.offloaded),
       log := h.log + [Wait(D2H, Compute), Wait(Compute, D2H),
                       Work(Compute, Release(GroupTags(h.bufs, h.offloaded)))])
  }

  /** ... and the next group's copy starts. */
  ghost function AtWindow(groups: nat, h: Handler): Option<Handler> {
    var h1 := HandOver(h);
    var h2 :- if h.offloaded < groups - 1 then BulkOffload(h1, h.offloaded + 1) else Some(h1);
    Some(h2.(offloaded := h.offloaded + 1))
  }

  ghost function CommitForward(groups: nat, windows: map<int, int>, h: Handler): Option<Handler> {
    var h1 :- Kickstart(h);
    if h1.offloaded !in windows then None
    else
      var h2 :- if windows[h1.offloaded] == h1.current then AtWindow(groups, h1) else Some(h1);
      Some(h2.(current := h2.current + 1, tensorCount := 0))
  }

  // ----- backward commit -----

  function HostTags(states: map<Tag, Saved>, group: int): set<Tag> {
    set t | t in states && t.group == group && states[t].OnHost?
  }

  predicate CanReload(states: map<Tag, Saved>, copies: map<Key, seq<int>>, group: int) {
    forall t :: t in HostTags(states, group) ==>
      states[t].key in copies && |copies[states[t].key]| == Product(states[t].shape)
  }

  /** The reloaded storage of the saved key, viewed with the saved shape. */
  function BringBack(saved: Saved, copies: map<Key, seq<int>>): Saved
    requires saved.OnHost? && saved.key in copies
  {
    OnDevice(Tensor(Reloaded(saved.key), copies[saved.key], saved.shape))
  }

  function Restore(states: map<Tag, Saved>, copies: map<Key, seq<int>>, tags: set<Tag>): map<Tag, Saved>
    requires forall t :: t in tags && t in states ==> states[t].OnHost? && states[t].key in copies
  {
    map t | t in states :: if t in tags then BringBack(states[t], copies) else states[t]
  }

  function BulkReload(groups: nat, h: Handler, group: int): Option<Handler> {
    if group >= groups || group !in h.copies || !CanReload(h.states, h.copies[group], group) then None
    else
      var tags := HostTags(h.states, group);
      Some(Issue(h.(states := Restore(h.states, h.copies[group], tags), copies := h.copies - {group}),
                 [Work(H2D, CopyIn(group, tags))]))
  }

  function CommitBackward(groups: nat, windows: map<int, int>, h: Handler): Option<Handler> {
    var h1 := h.(current := h.current - 1);
    if h1.current < 0 || h1.offloaded - 1 !in windows then None
    else
      var h2 :- if windows[h1.offloaded - 1] == h1.current then ReloadAtWindow(groups, h1) else Some(h1);
      Some(FinishBackward(h2))
  }

  /** The last group waits for every reload and resets the counter. */
  function FinishBackward(h: Handler): Handler {
    if h.current == 0 then Issue(h, [Wait(Compute, H2D)]).(offloaded := 0) else h
  }

  function ReloadAtWindow(groups: nat, h: Handler): Option<Handler> {
    var h1 := Issue(h, [Wait(H2D, Compute), Wait(Compute, H2D)]);
    var h2 :- BulkReload(groups, h1, h.offloaded - 1);
    Some(h2.(offloaded := h2.offloaded - if h2.offloaded > 1 then 1 else 0))
  }
}

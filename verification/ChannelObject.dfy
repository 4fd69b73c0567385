/** The channel object as one consumer uses it, and `select` with its registration tables. */
module ChannelObjects {
  import opened Options
  import opened ChannelTypes

  datatype SendResult = SendOk | SendClosed | SendFull | SendBadTimeout | SendTimedOut | SendBlocked
  datatype RecvResult = Got(item: Item) | RecvEmpty | RecvClosedEmpty | RecvBadTimeout | RecvTimedOut | RecvBlocked
  datatype NextResult = Yield(item: Item) | StopIteration | NextClosed | NextBlocked

  /** `open`: `sender` is Some; `signal`: `close_tx` is Some; `clones`: sender handles held elsewhere. */
  class Channel {
    var cap: Option<nat>
    var open: bool
    var signal: bool
    var clones: nat
    var buf: seq<Item>

    predicate HasRoom()
      reads this
    {
      cap.None? || |buf| < cap.value
    }

    /** The queue has no live sender handle. */
    predicate Disconnected()
      reads this
    {
      !open && clones == 0
    }

    constructor (capacity: Option<nat>)
      ensures cap == capacity && open && signal && clones == 0 && buf == []
    {
      cap, open, signal, clones, buf := capacity, true, true, 0, [];
    }

    /** `Channel(capacity)`: None for "Capacity must be non-negative". */
    static method New(capacity: Option<int>) returns (c: Option<Channel>)
      ensures c.None? <==> capacity.Some? && capacity.value < 0
      ensures c.Some? ==>
        && fresh(c.value) && c.value.open && c.value.signal && c.value.buf == []
        && (c.value.cap.Some? <==> capacity.Some?) && (capacity.Some? ==> c.value.cap.value == capacity.value)
    {
      if capacity.Some? && capacity.value < 0 { return None; }
      var made := new Channel(if capacity.Some? then Some(capacity.value as nat) else None);
      c := Some(made);
    }

    /** The select! of `send`: whichever ready arm the runtime picks. */
    method SendSelect(item: Item, timed: bool) returns (r: SendResult)
      requires open
      modifies this`buf
      ensures buf == if r.SendOk? then old(buf) + [item] else old(buf)
      ensures r.SendOk? ==> old(HasRoom())
      ensures r.SendClosed? ==> !signal
      ensures r.SendTimedOut? ==> timed
      ensures r.SendBlocked? ==> !timed && signal && !HasRoom()
      ensures !r.SendFull? && !r.SendBadTimeout?
    {
      var expired: bool, sawSignal: bool := *, *;
      if timed && expired { return SendTimedOut; }
      if !signal && sawSignal { return SendClosed; }
      if HasRoom() {
        buf := buf + [item];
        return SendOk;
      }
      r := if !signal then SendClosed else if timed then SendTimedOut else SendBlocked;
    }

    /** `send(item, timeout)`: the item is in the buffer exactly when the call succeeded; an untimed send with
        room always succeeds; every error has its cause. */
    method Send(item: Item, to: Timeout) returns (r: SendResult)
      modifies this`buf
      ensures buf == if r.SendOk? then old(buf) + [item] else old(buf)
      ensures r.SendOk? ==> open && !to.Negative? && old(HasRoom())
      ensures open && to.Untimed? && old(cap.None? || |buf| < cap.value) ==> r.SendOk?
      ensures !open ==> r == SendClosed
      ensures r.SendClosed? ==> !open || !signal
      ensures r.SendBadTimeout? <==> open && to.Negative?
      ensures r.SendTimedOut? ==> to.Timed?
      ensures r.SendBlocked? ==> to.Untimed? && open && signal && !HasRoom()
      ensures !r.SendFull?
    {
      if !open { return SendClosed; }
      if to.Untimed? && HasRoom() {
        buf := buf + [item];
        return SendOk;
      }
      if to.Negative? { return SendBadTimeout; }
      r := SendSelect(item, to.Timed?);
    }

    method TrySend(item: Item) returns (r: SendResult)
      modifies this`buf
      ensures r == if !open then SendClosed else if old(cap.None? || |buf| < cap.value) then SendOk else SendFull
      ensures buf == if r.SendOk? then old(buf) + [item] else old(buf)
    {
      if !open { return SendClosed; }
      if !HasRoom() { return SendFull; }
      buf := buf + [item];
      r := SendOk;
    }

    method TryRecv() returns (r: RecvResult)
      modifies this`buf
      ensures if old(buf) != [] then r == Got(old(buf)[0]) && buf == old(buf)[1..]
              else buf == [] && r == if !open && clones == 0 then RecvClosedEmpty else RecvEmpty
    {
      if buf != [] {
        r := Got(buf[0]);
        buf := buf[1..];
      } else {
        r := if Disconnected() then RecvClosedEmpty else RecvEmpty;
      }
    }

    /** The select! of `recv`: whichever ready arm the runtime picks. */
    method RecvSelect(timed: bool) returns (r: RecvResult)
      modifies this`buf
      ensures r.Got? ==> old(buf) != [] && r.item == old(buf)[0] && buf == old(buf)[1..]
      ensures !r.Got? ==> buf == old(buf)
      ensures r.RecvClosedEmpty? ==> buf == [] && (!signal || Disconnected())
      ensures r.RecvTimedOut? ==> timed
      ensures r.RecvBlocked? ==> !timed && signal && buf == [] && !Disconnected()
      ensures !r.RecvEmpty? && !r.RecvBadTimeout?
    {
      var expired: bool, sawSignal: bool := *, *;
      if timed && expired { return RecvTimedOut; }
      if !signal && sawSignal {
        // the close arm, with its final try_recv
        if buf == [] { return RecvClosedEmpty; }
        r := Got(buf[0]);
        buf := buf[1..];
      } else if buf != [] {
        r := Got(buf[0]);
        buf := buf[1..];
      } else if Disconnected() || !signal {
        r := RecvClosedEmpty;
      } else {
        r := if timed then RecvTimedOut else RecvBlocked;
      }
    }

    method Recv(to: Timeout) returns (r: RecvResult)
      modifies this`buf
      ensures r.Got? ==> old(buf) != [] && r.item == old(buf)[0] && buf == old(buf)[1..]
      ensures !r.Got? ==> buf == old(buf)
      ensures to.Untimed? && old(buf) != [] ==> r.Got?
      ensures r.RecvClosedEmpty? ==> buf == [] && (!signal || Disconnected())
      ensures r.RecvBadTimeout? <==> to.Negative?
      ensures r.RecvTimedOut? ==> to.Timed?
      ensures r.RecvBlocked? ==> to.Untimed? && signal && buf == [] && !Disconnected()
      ensures !r.RecvEmpty?
    {
      if to.Untimed? && buf != [] {
        r := Got(buf[0]);
        buf := buf[1..];
        return;
      }
      if to.Negative? { return RecvBadTimeout; }
      r := RecvSelect(to.Timed?);
    }

    /** `close()`: both fields become None, the buffer stays. */
    method Close()
      modifies this`open, this`signal
      ensures !open && !signal
    {
      open := false;
      signal := false;
    }

    /** `__next__`: iteration stops exactly when `recv` fails on a channel whose sender is gone. */
    method Next() returns (r: NextResult)
      modifies this`buf
      ensures old(buf) != [] ==> r == Yield(old(buf)[0]) && buf == old(buf)[1..]
      ensures old(buf) == [] ==> buf == []
      ensures old(buf) == [] ==>
        r == if signal && (open || clones > 0) then NextBlocked else if open then NextClosed else StopIteration
    {
      var x := Recv(Untimed);
      if x.Got? { return Yield(x.item); }
      if x.RecvBlocked? { return NextBlocked; }
      r := if !open && buf == [] then StopIteration else NextClosed;
    }
  }

  /** Drain round trip: repeated untimed `recv` on a closed channel returns exactly the buffer, in order ... */
  method DrainByRecv(c: Channel) returns (got: seq<Item>)
    requires !c.signal
    modifies c`buf
    ensures got == old(c.buf) && c.buf == []
  {
    got := [];
    var r := c.Recv(Untimed);
    while r.Got?
      invariant r.Got? ==> got + [r.item] + c.buf == old(c.buf)
      invariant !r.Got? ==> got == old(c.buf) && c.buf == []
      decreases |c.buf|, r.Got?
    {
      got := got + [r.item];
      r := c.Recv(Untimed);
    }
  }

  /** ... and then fails, however often it is called. */
  method DrainedFailsForever(c: Channel, n: nat) returns (rs: seq<RecvResult>)
    requires !c.signal && c.buf == []
    modifies c`buf
    ensures c.buf == [] && |rs| == n && forall i :: 0 <= i < n ==> rs[i] == RecvClosedEmpty
  {
    rs := [];
    while |rs| < n
      invariant c.buf == [] && |rs| <= n && forall i :: 0 <= i < |rs| ==> rs[i] == RecvClosedEmpty
    {
      var r := c.Recv(Untimed);
      rs := rs + [r];
    }
  }

  /** `list(channel)` after a close: exactly the buffer, then StopIteration. */
  method DrainByIteration(c: Channel) returns (got: seq<Item>)
    requires !c.open && !c.signal
    modifies c`buf
    ensures got == old(c.buf) && c.buf == []
  {
    got := [];
    var r := c.Next();
    while r.Yield?
      invariant r.Yield? ==> got + [r.item] + c.buf == old(c.buf)
      invariant !r.Yield? ==> got == old(c.buf) && c.buf == [] && r.StopIteration?
      decreases |c.buf|, r.Yield?
    {
      got := got + [r.item];
      r := c.Next();
    }
  }
}

module Selects {
  import opened Options
  import opened ChannelTypes
  import opened ChannelObjects

  /** What the caller passes: operation objects, or something else. */
  datatype Op = RecvOp(c: Channel) | SendOp(c: Channel, item: Item) | Other

  datatype Result =
    | Success(i: nat, item: Option<Item>)
    | NoOps | WrongType | SelRecvClosed | SelSendClosed | ItemConsumed | SelTimeout | SelBlocked

  /** The two index tables after registering the first `k` operations: disjoint, and together exactly the registered
      indices; operation `i` owns one index of each. */
  ghost predicate Tables(ops: seq<Op>, k: nat, mainMap: map<nat, nat>, closeMap: map<nat, (nat, bool)>, n: nat)
    requires k <= |ops|
  {
    && mainMap.Keys !! closeMap.Keys
    && (forall x: nat :: x < n <==> x in mainMap || x in closeMap)
    && (forall x :: x in mainMap ==> mainMap[x] < k && x == 2 * mainMap[x])
    && (forall x :: x in closeMap ==>
          closeMap[x].0 < k && x == 2 * closeMap[x].0 + 1 && closeMap[x].1 == ops[closeMap[x].0].SendOp?)
    && n == 2 * k
  }

  /** Step 2 of `select`: each operation registers its channel and its close signal; `Select` hands out
      consecutive indices. */
  method Register(ops: seq<Op>) returns (mainMap: map<nat, nat>, closeMap: map<nat, (nat, bool)>, n: nat)
    ensures Tables(ops, |ops|, mainMap, closeMap, n)
  {
    mainMap, closeMap, n := map[], map[], 0;
    for i := 0 to |ops|
      invariant Tables(ops, i, mainMap, closeMap, n)
    {
      mainMap := mainMap[n := i];
      n := n + 1;
      closeMap := closeMap[n := (i, ops[i].SendOp?)];
      n := n + 1;
    }
  }

  /** Is the arm with selector index `x` ready? */
  predicate Ready(ops: seq<Op>, mainMap: map<nat, nat>, closeMap: map<nat, (nat, bool)>, x: nat)
    requires forall o :: o in ops ==> !o.Other?
    requires x in mainMap ==> mainMap[x] < |ops|
    requires x in closeMap ==> closeMap[x].0 < |ops|
    reads set o | o in ops && !o.Other? :: o.c
  {
    if x in closeMap then !ops[closeMap[x].0].c.signal
    else if x in mainMap then
      var op := ops[mainMap[x]];
      if op.SendOp? then op.c.HasRoom() else op.c.buf != [] || op.c.Disconnected()
    else false
  }

  /** A receive that won: the item, or the disconnection. */
  method TakeFrom(ops: seq<Op>, i: nat) returns (r: Result)
    requires i < |ops| && ops[i].RecvOp?
    modifies ops[i].c`buf
    ensures if old(ops[i].c.buf) != []
            then r == Success(i, Some(old(ops[i].c.buf)[0])) && ops[i].c.buf == old(ops[i].c.buf)[1..]
            else r == SelRecvClosed && ops[i].c.buf == []
  {
    var c := ops[i].c;
    if c.buf == [] { return SelRecvClosed; }
    r := Success(i, Some(c.buf[0]));
    c.buf := c.buf[1..];
  }

  /** Step 3: resolve the index the selector chose. `slots` are the mutexes the items are taken out of. */
  method Resolve(ops: seq<Op>, slots: seq<Option<Item>>,
                 mainMap: map<nat, nat>, closeMap: map<nat, (nat, bool)>, n: nat, x: nat)
      returns (r: Result)
    requires (forall o :: o in ops ==> !o.Other?) && Tables(ops, |ops|, mainMap, closeMap, n) && x < n
    requires Filled(ops, slots) && Ready(ops, mainMap, closeMap, x)
    modifies (set o | o in ops && !o.Other? :: o.c)`buf
    ensures Outcome(ops, r) && ClosedMeansClosed(ops, r)
    ensures r.SelRecvClosed? || r.SelSendClosed? || r.Success?
  {
    if x in closeMap {
      var (i, isSend) := closeMap[x];
      assert ops[i] in ops;
      if isSend { return SelSendClosed; }
      r := TakeFrom(ops, i);
    } else {
      var i := mainMap[x];
      assert ops[i] in ops;
      if ops[i].RecvOp? {
        r := TakeFrom(ops, i);
      } else if slots[i].None? {
        r := ItemConsumed;
      } else {
        ops[i].c.buf := ops[i].c.buf + [slots[i].value];
        r := Success(i, None);
      }
    }
  }

  /** Every send operation has its item in its slot. */
  predicate Filled(ops: seq<Op>, slots: seq<Option<Item>>) {
    |slots| == |ops| && forall i :: 0 <= i < |ops| && ops[i].SendOp? ==> slots[i] == Some(ops[i].item)
  }

  /** The "closed" answers name a real cause. */
  ghost predicate ClosedMeansClosed(ops: seq<Op>, r: Result)
    reads set o | o in ops && !o.Other? :: o.c
  {
    && (r.SelSendClosed? ==> exists o :: o in ops && o.SendOp? && !o.c.signal)
    && (r.SelRecvClosed? ==> exists o :: o in ops && o.RecvOp? && o.c.buf == [] && (!o.c.signal || o.c.Disconnected()))
  }

  /** Success at `i` moved exactly one item on operation `i`'s channel and left every other channel's buffer
      alone; anything else moved nothing. */
  twostate predicate Outcome(ops: seq<Op>, r: Result)
    reads set o | o in ops && !o.Other? :: o.c
  {
    if r.Success? then
      && r.i < |ops| && !ops[r.i].Other?
      && (var c := ops[r.i].c;
          && (if ops[r.i].RecvOp?
              then old(c.buf) != [] && r.item == Some(old(c.buf)[0]) && c.buf == old(c.buf)[1..]
              else old(c.HasRoom()) && r.item == None && c.buf == old(c.buf) + [ops[r.i].item])
          && (forall o :: o in ops && !o.Other? && o.c != c ==> o.c.buf == old(o.c.buf)))
    else forall o :: o in ops && !o.Other? ==> o.c.buf == old(o.c.buf)
  }

  /** `select(ops, timeout)` over any list of operations, duplicates included. */
  method Select(ops: seq<Op>, timed: bool) returns (r: Result)
    modifies (set o | o in ops && !o.Other? :: o.c)`buf
    ensures Outcome(ops, r) && ClosedMeansClosed(ops, r)
    ensures r.NoOps? <==> ops == []
    ensures r.WrongType? <==> Other in ops
    ensures !r.ItemConsumed?
    ensures r.SelTimeout? ==> timed
    ensures r.SelBlocked? ==> !timed && forall o :: o in ops ==>
              o.c.signal && (if o.SendOp? then !o.c.HasRoom() else o.c.buf == [] && !o.c.Disconnected())
  {
    if ops == [] { return NoOps; }
    var slots: seq<Option<Item>> := [];
    for i := 0 to |ops|
      invariant forall j :: 0 <= j < i ==> !ops[j].Other?
      invariant Filled(ops[..i], slots)
    {
      if ops[i].Other? { return WrongType; }
      slots := slots + [if ops[i].SendOp? then Some(ops[i].item) else None];
    }
    assert ops[..|ops|] == ops;
    var mainMap, closeMap, n := Register(ops);
    var ready := set x | 0 <= x < n && Ready(ops, mainMap, closeMap, x);
    if ready == {} {
      if timed { return SelTimeout; }
      forall x | 0 <= x < n ensures !Ready(ops, mainMap, closeMap, x) {
        assert x !in ready;
      }
      NothingReady(ops, mainMap, closeMap, n);
      return SelBlocked;
    }
    var expired: bool := *;
    if timed && expired { return SelTimeout; }
    var x :| x in ready;
    r := Resolve(ops, slots, mainMap, closeMap, n, x);
  }

  lemma NothingReady(ops: seq<Op>, mainMap: map<nat, nat>, closeMap: map<nat, (nat, bool)>, n: nat)
    requires (forall o :: o in ops ==> !o.Other?) && Tables(ops, |ops|, mainMap, closeMap, n)
    requires forall x :: 0 <= x < n ==> !Ready(ops, mainMap, closeMap, x)
    ensures forall o :: o in ops ==>
              o.c.signal && (if o.SendOp? then !o.c.HasRoom() else o.c.buf == [] && !o.c.Disconnected())
  {
    forall o | o in ops
      ensures o.c.signal && (if o.SendOp? then !o.c.HasRoom() else o.c.buf == [] && !o.c.Disconnected())
    {
      var i :| 0 <= i < |ops| && ops[i] == o;
      assert 2 * i in mainMap || 2 * i in closeMap;
      assert 2 * i + 1 in mainMap || 2 * i + 1 in closeMap;
      assert !Ready(ops, mainMap, closeMap, 2 * i) && !Ready(ops, mainMap, closeMap, 2 * i + 1);
      assert 2 * i in mainMap && mainMap[2 * i] == i;
      assert 2 * i + 1 in closeMap && closeMap[2 * i + 1].0 == i;
    }
  }
}

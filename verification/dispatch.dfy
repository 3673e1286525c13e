/** Received frames: the list of handlers of `src/CanPort.cpp` and the bounded queue of
    `src/ThreadedCanReader.cpp`. */
module Dispatch {
  import opened Conventions
  import opened Wrappers
  import Controller
  import ControllerConfig
  import Routing

  /** The handlers of the program: the reader of the SmartWeb to MQTT gateway, and virtual controllers.
      They are compared by address. */
  datatype Handler = Reader(address: nat) | Controller(address: nat, config: ControllerConfig.Config)

  /** What `Handle` answers if it does not throw. */
  predicate Takes(h: Handler, frame: CanFrame) {
    match h
    case Reader(_) => Routing.Accepts(frame)
    case Controller(_, config) => Controller.IsForMe(config, frame)
  }

  /** `i` is the first handler that takes the frame; those in `throwing` throw and are passed over. */
  ghost predicate IsTaker(hs: seq<Handler>, frame: CanFrame, throwing: set<nat>, i: nat) {
    && i < |hs| && hs[i].address !in throwing && Takes(hs[i], frame)
    && forall j | 0 <= j < i :: hs[j].address in throwing || !Takes(hs[j], frame)
  }

  function Without(hs: seq<Handler>, address: nat): seq<Handler> {
    if hs == [] then []
    else (if hs[0].address == address then [] else [hs[0]]) + Without(hs[1..], address)
  }

  /** Removing a handler removes every copy of it, keeps the others, and leaves the first taker of a
      frame the first taker unless it is the one removed. */
  lemma {:induction false} WithoutKeepsOrder(hs: seq<Handler>, address: nat, frame: CanFrame, throwing: set<nat>,
                                             i: nat)
    ensures forall h | h in Without(hs, address) :: h in hs && h.address != address
    ensures forall h | h in hs && h.address != address :: h in Without(hs, address)
    ensures IsTaker(hs, frame, throwing, i) && hs[i].address != address ==>
              exists j: nat :: IsTaker(Without(hs, address), frame, throwing, j) && Without(hs, address)[j] == hs[i]
  {
    if hs != [] {
      var rest := Without(hs[1..], address);
      WithoutKeepsOrder(hs[1..], address, frame, throwing, if i == 0 then 0 else i - 1);
      if IsTaker(hs, frame, throwing, i) && hs[i].address != address {
        if i == 0 {
          assert IsTaker(Without(hs, address), frame, throwing, 0);
        } else {
          assert forall j | 0 <= j < i - 1 :: hs[1..][j] == hs[j + 1];
          assert IsTaker(hs[1..], frame, throwing, i - 1);
          var j: nat :| IsTaker(rest, frame, throwing, j) && rest[j] == hs[i];
          var shift := if hs[0].address == address then 0 else 1;
          assert Without(hs, address)[j + shift] == hs[i];
          assert IsTaker(Without(hs, address), frame, throwing, j + shift);
        }
      }
    }
  }

  /** The handlers of `TCanPort` and the frames that each address has taken. */
  class Handlers {
    var handlers: seq<Handler>
    var inboxes: map<nat, seq<CanFrame>>

    constructor ()
      ensures handlers == [] && inboxes == map[]
    {
      handlers, inboxes := [], map[];
    }

    function Inbox(address: nat): seq<CanFrame>
      reads this`inboxes
    {
      if address in inboxes then inboxes[address] else []
    }

    method AddHandler(h: Handler)
      modifies this`handlers
      ensures handlers == old(handlers) + [h]
    {
      handlers := handlers + [h];
    }

    method RemoveHandler(address: nat)
      modifies this`handlers
      ensures handlers == Without(old(handlers), address)
    {
      var kept := [];
      for i := 0 to |handlers|
        invariant kept + Without(handlers[i..], address) == Without(handlers, address)
      {
        if handlers[i].address != address {
          kept := kept + [handlers[i]];
        }
        assert handlers[i..][1..] == handlers[i + 1..];
      }
      handlers := kept;
    }

    /** `RunHandlers`: the frame goes to the first handler that takes it without throwing, and to no other. */
    method RunHandlers(frame: CanFrame, throwing: set<nat>) returns (taker: Option<nat>)
      modifies this`inboxes
      ensures taker.None? ==>
                inboxes == old(inboxes) && forall i: nat :: !IsTaker(handlers, frame, throwing, i)
      ensures taker.Some? ==>
                && IsTaker(handlers, frame, throwing, taker.value)
                && var address := handlers[taker.value].address;
                inboxes == old(inboxes)[address := old(Inbox(address)) + [frame]]
    {
      for i := 0 to |handlers|
        invariant inboxes == old(inboxes)
        invariant forall j | 0 <= j < i :: handlers[j].address in throwing || !Takes(handlers[j], frame)
      {
        var h := handlers[i];
        if h.address !in throwing && Takes(h, frame) {
          inboxes := inboxes[h.address := Inbox(h.address) + [frame]];
          return Some(i);
        }
      }
      taker := None;
    }
  }

  /** With the reader registered first, as at start-up, and not throwing, the frame that `RunHandlers` hands over goes
      to the reader exactly if it is an answer to a poll or an announcement, so that none of these ever reaches a
      virtual controller; any other one goes to the first controller it is for that does not throw. */
  lemma ReaderFirst(hs: seq<Handler>, frame: CanFrame, throwing: set<nat>, i: nat)
    requires hs != [] && hs[0].Reader? && hs[0].address !in throwing && forall j | 0 < j < |hs| :: hs[j].Controller?
    requires IsTaker(hs, frame, throwing, i)
    ensures i == 0 <==> Routing.Accepts(frame)
    ensures i > 0 ==> Controller.IsForMe(hs[i].config, frame) && hs[i].address !in throwing
    ensures forall j | 0 < j < i :: hs[j].address in throwing || !Controller.IsForMe(hs[j].config, frame)
  {
    assert hs[0] == hs[0];
  }

  /** `TThreadedCanReader`. `kept` are the accepted frames that found room, `handled` those passed on. */
  class ThreadedCanReader {
    const framesQueueMaxLength: nat
    var frames: seq<CanFrame>
    ghost var kept: seq<CanFrame>
    ghost var handled: seq<CanFrame>

    /** Nothing is lost or reordered behind the queue, and the queue is bounded. */
    ghost predicate Valid()
      reads this
    {
      |frames| <= framesQueueMaxLength && handled + frames == kept && forall f | f in kept :: Routing.Accepts(f)
    }

    constructor (maxLength: nat)
      ensures Valid() && framesQueueMaxLength == maxLength && kept == []
    {
      framesQueueMaxLength := maxLength;
      frames, kept, handled := [], [], [];
    }

    /** An accepted frame is taken even if there is no room for it: then it is dropped. */
    method Handle(frame: CanFrame) returns (taken: bool)
      requires Valid()
      modifies this
      ensures Valid() && handled == old(handled) && taken == Routing.Accepts(frame)
      ensures kept == if taken && |old(frames)| < framesQueueMaxLength then old(kept) + [frame] else old(kept)
    {
      if !Routing.Accepts(frame) {
        return false;
      }
      if |frames| < framesQueueMaxLength {
        frames := frames + [frame];
        kept := kept + [frame];
      }
      taken := true;
    }

    /** `Get`: the oldest frame. An empty queue is waited for, in which time `arrived` comes in; none is returned
        if nothing acceptable arrives, or if the wait has `expired` by the time its mutex is back, even with frames
        in the queue. */
    method Get(arrived: seq<CanFrame>, expired: bool) returns (frame: Option<CanFrame>)
      requires Valid()
      modifies this
      ensures Valid() && old(kept) <= kept
      ensures frame.Some? ==> handled == old(handled) + [frame.value]
      ensures frame.None? ==> handled == old(handled) && old(frames) == []
      ensures frame.None? ==> expired || kept == old(kept)
      ensures old(frames) != [] ==> frame == Some(old(frames)[0]) && kept == old(kept)
      ensures old(frames) == [] && !expired && framesQueueMaxLength > 0 ==>
                (frame.None? <==> forall f | f in arrived :: !Routing.Accepts(f))
      ensures old(frames) == [] && expired ==> frame == None
    {
      if frames == [] {
        for i := 0 to |arrived|
          invariant Valid() && handled == old(handled) && old(kept) <= kept
          invariant framesQueueMaxLength > 0 ==> (frames == [] <==> forall f | f in arrived[..i] :: !Routing.Accepts(f))
          invariant frames == [] ==> kept == old(kept)
        {
          var _ := Handle(arrived[i]);
        }
        if expired || frames == [] {
          return None;
        }
      }
      frame := Some(frames[0]);
      assert handled + frames == (handled + [frames[0]]) + frames[1..];
      handled := handled + [frames[0]];
      frames := frames[1..];
    }
  }
}

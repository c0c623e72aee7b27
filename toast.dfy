/**
 * The `ToastManager` of tale-weaver's `use-toast`: the list of toasts on screen, the id counter
 * and the subscribed listeners. A listener is named by a number (the source compares listener
 * functions by identity), and what `notify` hands to the listeners is kept as a log of deliveries.
 */
module Toasts {
  import opened Wrappers
  import opened Strings

  const ToastLimit := 1

  /** A toast on screen: its id, the props it was created with, and whether it is open. */
  datatype Toast = Toast(id: string, title: Option<string>, description: Option<string>, variant: Option<string>, open: bool)

  /** The props of a new toast (everything but its id). */
  datatype ToastProps = ToastProps(title: Option<string>, description: Option<string>, variant: Option<string>)

  /**
   * The props handed to `update`: an id and the fields to overwrite; `None` is a key that is
   * absent, `Some` one that is given a value.
   */
  datatype Patch = Patch(id: string, title: Option<string>, description: Option<string>, variant: Option<string>, open: Option<bool>)

  /** One listener being called with the list of toasts. */
  datatype Delivery = Delivery(listener: nat, toasts: seq<Toast>)

  /** `{ ...props, id, open: true }` */
  function NewToast(props: ToastProps, id: string): (t: Toast)
    ensures t.id == id && t.open
    ensures t.title == props.title && t.description == props.description && t.variant == props.variant
  {
    Toast(id, props.title, props.description, props.variant, true)
  }

  /** A field of the patch that is present replaces the toast's. */
  function Override(current: Option<string>, given: Option<string>): Option<string>
  {
    if given.Some? then given else current
  }

  /** `{ ...t, ...props }`: every key present in the patch wins, the id included. */
  function Merge(t: Toast, p: Patch): (r: Toast)
    ensures r.id == p.id
    ensures p.title.Some? ==> r.title == p.title
    ensures p.title.None? ==> r.title == t.title
    ensures p.description.Some? ==> r.description == p.description
    ensures p.description.None? ==> r.description == t.description
    ensures p.variant.Some? ==> r.variant == p.variant
    ensures p.variant.None? ==> r.variant == t.variant
    ensures p.open.Some? ==> r.open == p.open.value
    ensures p.open.None? ==> r.open == t.open
  {
    Toast(p.id, Override(t.title, p.title), Override(t.description, p.description),
          Override(t.variant, p.variant), if p.open.Some? then p.open.value else t.open)
  }

  /** The `map` of `update`: the toasts with id `id` get the patch, the others stay as they are. */
  function UpdateToasts(toasts: seq<Toast>, id: string, p: Patch): (r: seq<Toast>)
    ensures |r| == |toasts|
    ensures forall i :: 0 <= i < |r| ==> r[i] == if toasts[i].id == id then Merge(toasts[i], p) else toasts[i]
  {
    seq(|toasts|, i requires 0 <= i < |toasts| => if toasts[i].id == id then Merge(toasts[i], p) else toasts[i])
  }

  /** The `map` of `dismiss`: the toasts with id `id` are closed, the others stay as they are. */
  function DismissToasts(toasts: seq<Toast>, id: string): (r: seq<Toast>)
    ensures |r| == |toasts|
    ensures forall i :: 0 <= i < |r| ==> r[i].id == toasts[i].id
    ensures forall i :: 0 <= i < |r| ==> if toasts[i].id == id then !r[i].open && r[i] == toasts[i].(open := false) else r[i] == toasts[i]
  {
    seq(|toasts|, i requires 0 <= i < |toasts| => if toasts[i].id == id then toasts[i].(open := false) else toasts[i])
  }

  /** The `filter` of the delayed removal: every toast with id `id` goes. */
  function RemoveToasts(toasts: seq<Toast>, id: string): (r: seq<Toast>)
    ensures |r| <= |toasts|
    ensures forall t :: t in r <==> t in toasts && t.id != id
  {
    if toasts == [] then []
    else (if toasts[0].id != id then [toasts[0]] else []) + RemoveToasts(toasts[1..], id)
  }

  /** Dismissing twice is dismissing once. */
  lemma DismissIdempotent(toasts: seq<Toast>, id: string)
    ensures DismissToasts(DismissToasts(toasts, id), id) == DismissToasts(toasts, id)
  {
  }

  /** A patch that repeats the toast's own id and fields changes nothing. */
  lemma UpdateWithSelf(toasts: seq<Toast>, t: Toast)
    requires forall i :: 0 <= i < |toasts| && toasts[i].id == t.id ==> toasts[i] == t
    ensures UpdateToasts(toasts, t.id, Patch(t.id, t.title, t.description, t.variant, Some(t.open))) == toasts
  {
  }

  /** What one `notify` hands out: the current toasts to every listener, in subscription order. */
  function Broadcast(listeners: seq<nat>, toasts: seq<Toast>): (r: seq<Delivery>)
    ensures |r| == |listeners|
    ensures forall i :: 0 <= i < |r| ==> r[i] == Delivery(listeners[i], toasts)
  {
    seq(|listeners|, i requires 0 <= i < |listeners| => Delivery(listeners[i], toasts))
  }

  /** `listeners.splice(listeners.indexOf(l), 1)` when `l` is there; nothing otherwise. */
  function RemoveFirst(listeners: seq<nat>, l: nat): (r: seq<nat>)
    ensures l !in listeners ==> r == listeners
    ensures l in listeners ==> |r| == |listeners| - 1
  {
    if l !in listeners then listeners
    else
      var i := FirstIndex(listeners, l);
      listeners[..i] + listeners[i + 1..]
  }

  function FirstIndex(s: seq<nat>, x: nat): (i: nat)
    requires x in s
    ensures i < |s| && s[i] == x && x !in s[..i]
  {
    if s[0] == x then 0 else 1 + FirstIndex(s[1..], x)
  }

  /** Unsubscribing takes out one copy of that listener and leaves every other listener. */
  lemma RemoveFirstCount(listeners: seq<nat>, l: nat)
    ensures multiset(RemoveFirst(listeners, l)) == multiset(listeners) - multiset{l}
  {
    if l in listeners {
      var i := FirstIndex(listeners, l);
      assert listeners == listeners[..i] + [l] + listeners[i + 1..];
      assert multiset(listeners) == multiset(listeners[..i]) + multiset{l} + multiset(listeners[i + 1..]);
    } else {
      assert multiset(listeners)[l] == 0;
    }
  }

  /** A listener subscribed once is gone after its unsubscribe, so calling it again does nothing. */
  lemma UnsubscribeTwice(listeners: seq<nat>, l: nat)
    requires multiset(listeners)[l] <= 1
    ensures l !in RemoveFirst(listeners, l)
    ensures RemoveFirst(RemoveFirst(listeners, l), l) == RemoveFirst(listeners, l)
  {
    RemoveFirstCount(listeners, l);
    assert multiset(RemoveFirst(listeners, l))[l] == 0;
  }

  /** `notify` as a loop over a list of listeners, appending to a delivery log. */
  method Deliver(log: seq<Delivery>, listeners: seq<nat>, toasts: seq<Toast>) returns (r: seq<Delivery>)
    ensures r == log + Broadcast(listeners, toasts)
  {
    r := log;
    var i := 0;
    while i < |listeners|
      invariant 0 <= i <= |listeners|
      invariant r == log + Broadcast(listeners[..i], toasts)
    {
      assert Broadcast(listeners[..i + 1], toasts) == Broadcast(listeners[..i], toasts) + [Delivery(listeners[i], toasts)];
      r := r + [Delivery(listeners[i], toasts)];
      i := i + 1;
    }
    assert listeners[..i] == listeners;
  }

  class ToastManager {
    var listeners: seq<nat>
    /** `state.toasts` */
    var toasts: seq<Toast>
    var count: nat
    /** Every call of a listener so far, in order. */
    var deliveries: seq<Delivery>

    /** No more toasts than `TOAST_LIMIT` are held. */
    ghost predicate Valid()
      reads this
    {
      |toasts| <= ToastLimit
    }

    constructor ()
      ensures listeners == [] && toasts == [] && count == 0 && deliveries == []
      ensures Valid()
    {
      listeners := [];
      toasts := [];
      count := 0;
      deliveries := [];
    }

    /** `getState` */
    function GetState(): seq<Toast>
      reads this
    {
      toasts
    }

    /** `notify`: every listener is called with the current toasts. */
    method Notify()
      modifies this
      ensures deliveries == old(deliveries) + Broadcast(listeners, toasts)
      ensures listeners == old(listeners) && toasts == old(toasts) && count == old(count)
    {
      deliveries := Deliver(deliveries, listeners, toasts);
    }

    /** `subscribe`: the listener is added at the end. */
    method Subscribe(l: nat)
      modifies this
      ensures listeners == old(listeners) + [l]
      ensures toasts == old(toasts) && count == old(count) && deliveries == old(deliveries)
    {
      listeners := listeners + [l];
    }

    /** The function `subscribe` returns: takes out the first copy of the listener, if any. */
    method Unsubscribe(l: nat)
      modifies this
      ensures listeners == RemoveFirst(old(listeners), l)
      ensures multiset(listeners) == multiset(old(listeners)) - multiset{l}
      ensures toasts == old(toasts) && count == old(count) && deliveries == old(deliveries)
    {
      RemoveFirstCount(listeners, l);
      if l in listeners {
        var index := FirstIndex(listeners, l);
        listeners := listeners[..index] + listeners[index + 1..];
      }
    }

    /** `genId`: the counter goes up by one and is written in decimal, so no earlier id comes again. */
    method GenId() returns (id: string)
      modifies this
      ensures count == old(count) + 1 && id == NatToString(count)
      ensures forall k :: 0 <= k <= old(count) ==> id != NatToString(k)
      ensures listeners == old(listeners) && toasts == old(toasts) && deliveries == old(deliveries)
    {
      count := count + 1;
      id := NatToString(count);
      forall k | 0 <= k <= old(count) ensures id != NatToString(k) {
        NatToStringInjective(count, k);
      }
    }

    /** `toast`: a new open toast in front, cut to `TOAST_LIMIT`, then the listeners are told. */
    method Toast(props: ToastProps) returns (id: string)
      modifies this
      ensures count == old(count) + 1 && id == NatToString(count)
      ensures forall k :: 0 <= k <= old(count) ==> id != NatToString(k)
      ensures toasts == ([NewToast(props, id)] + old(toasts))[..ToastLimit]
      ensures toasts == [NewToast(props, id)]
      ensures Valid()
      ensures listeners == old(listeners)
      ensures deliveries == old(deliveries) + Broadcast(listeners, toasts)
    {
      id := GenId();
      toasts := ([NewToast(props, id)] + toasts)[..ToastLimit];
      Notify();
    }

    /** The `update` returned by `toast(...)` for the toast `id`. */
    method Update(id: string, p: Patch)
      modifies this
      ensures toasts == UpdateToasts(old(toasts), id, p)
      ensures old(Valid()) ==> Valid()
      ensures listeners == old(listeners) && count == old(count)
      ensures deliveries == old(deliveries) + Broadcast(listeners, toasts)
    {
      toasts := UpdateToasts(toasts, id, p);
      Notify();
    }

    /** The `dismiss` returned by `toast(...)` for the toast `id`; the delayed removal is `RemoveToast`. */
    method Dismiss(id: string)
      modifies this
      ensures toasts == DismissToasts(old(toasts), id)
      ensures old(Valid()) ==> Valid()
      ensures listeners == old(listeners) && count == old(count)
      ensures deliveries == old(deliveries) + Broadcast(listeners, toasts)
    {
      toasts := DismissToasts(toasts, id);
      Notify();
    }

    /** The `setTimeout` callback of `dismiss`, when it fires. */
    method RemoveToast(id: string)
      modifies this
      ensures toasts == RemoveToasts(old(toasts), id)
      ensures old(Valid()) ==> Valid()
      ensures listeners == old(listeners) && count == old(count)
      ensures deliveries == old(deliveries) + Broadcast(listeners, toasts)
    {
      toasts := RemoveToasts(toasts, id);
      Notify();
    }

    /** The `onOpenChange` of the toast `id`: closing it dismisses it, opening it does nothing. */
    method OnOpenChange(id: string, open: bool)
      modifies this
      ensures open ==> toasts == old(toasts) && deliveries == old(deliveries)
      ensures !open ==> toasts == DismissToasts(old(toasts), id) && deliveries == old(deliveries) + Broadcast(listeners, toasts)
      ensures listeners == old(listeners) && count == old(count)
    {
      if !open {
        Dismiss(id);
      }
    }
  }
}

/**
 * The `onmessage` handler of the counter page: how one decoded inbound frame
 * is folded into the `counters` map, and what a run of frames does.
 */
module Reconciliation {
  import opened Messages

  /** The updater passed to `setCounters` for a counter frame: `{...prev, [name]: value}`. */
  function Upsert(prev: Counters, name: string, value: int): (r: Counters)
    ensures r.Keys == prev.Keys + {name}
    ensures r[name] == value
    ensures forall k :: k in prev && k != name ==> r[k] == prev[k]
  {
    prev[name := value]
  }

  /** The updater passed to `setCounters` for a deleted frame: copy, then `delete copy[name]`. */
  function Remove(prev: Counters, name: string): (r: Counters)
    ensures r.Keys == prev.Keys - {name}
    ensures forall k :: k in r ==> r[k] == prev[k]
  {
    prev - {name}
  }

  /** The guard of the first branch: type "counter", a truthy name and a value that is not undefined. */
  predicate IsUpdate(msg: Message)
  {
    msg.kind == "counter" && Truthy(msg.counter) && msg.value.Some?
  }

  /** The guard of the second branch: type "deleted" and a truthy name. */
  predicate IsDelete(msg: Message)
  {
    msg.kind == "deleted" && Truthy(msg.counter)
  }

  /** Whether a frame is acted on at all; every other frame only gets logged. */
  predicate Handled(ev: Inbound)
  {
    ev.Parsed? && (IsUpdate(ev.msg) || IsDelete(ev.msg))
  }

  /** Whether a frame names the counter `k` (a parse failure names none). */
  predicate Names(ev: Inbound, k: string)
  {
    ev.Parsed? && ev.msg.counter == Some(k)
  }

  /**
   * `ws.onmessage`: a handled frame writes or removes its own counter and
   * nothing else; an unhandled frame or a parse failure changes nothing.
   */
  function Apply(counters: Counters, ev: Inbound): (r: Counters)
    ensures ev.Parsed? && IsUpdate(ev.msg) ==> Lookup(r, ev.msg.counter.value) == ev.msg.value
    ensures ev.Parsed? && IsDelete(ev.msg) ==> ev.msg.counter.value !in r
    ensures forall k :: !Names(ev, k) ==> Lookup(r, k) == Lookup(counters, k)
    ensures !Handled(ev) ==> r == counters
  {
    match ev
    case ParseError => counters
    case Parsed(msg) =>
      if IsUpdate(msg) then Upsert(counters, msg.counter.value, msg.value.value)
      else if IsDelete(msg) then Remove(counters, msg.counter.value)
      else counters
  }

  /** A value of 0 is written: the guard is `value !== undefined`, not truthiness. */
  lemma ZeroValueApplied(counters: Counters, name: string)
    requires name != ""
    ensures Lookup(Apply(counters, Parsed(Message("counter", Some(name), Some(0)))), name) == Some(0)
  {
  }

  /** An empty name is falsy, so neither branch fires and the map is left alone. */
  lemma EmptyNameIgnored(counters: Counters, kind: string, value: Option<int>)
    ensures Apply(counters, Parsed(Message(kind, Some(""), value))) == counters
  {
  }

  /** Deleting a counter the map does not hold changes nothing. */
  lemma DeleteAbsentUnchanged(counters: Counters, ev: Inbound)
    requires ev.Parsed? && IsDelete(ev.msg) && ev.msg.counter.value !in counters
    ensures Apply(counters, ev) == counters
  {
  }

  /** Receiving the same frame twice has the effect of receiving it once. */
  lemma ApplyIdempotent(counters: Counters, ev: Inbound)
    ensures Apply(Apply(counters, ev), ev) == Apply(counters, ev)
  {
  }

  /** A handled frame for a counter overrides whatever an earlier frame did to that counter. */
  lemma LaterFrameOverrides(counters: Counters, earlier: Inbound, later: Inbound)
    requires Handled(later)
    requires earlier.Parsed? ==> earlier.msg.counter == later.msg.counter
    ensures Apply(Apply(counters, earlier), later) == Apply(counters, later)
  {
  }

  /** Frames about different counters can be received in either order. */
  lemma DistinctCountersCommute(counters: Counters, a: Inbound, b: Inbound)
    requires Handled(a) && Handled(b) ==> a.msg.counter != b.msg.counter
    ensures Apply(Apply(counters, a), b) == Apply(Apply(counters, b), a)
  {
  }

  /** The frames of a connection, received in order, each through `onmessage`. */
  function ApplyAll(counters: Counters, evs: seq<Inbound>): Counters
    decreases |evs|
  {
    if evs == [] then counters
    else Apply(ApplyAll(counters, evs[..|evs| - 1]), evs[|evs| - 1])
  }

  /**
   * What one frame says about counter `k`: nothing (`None`), that it now
   * holds a value (`Some(Some(v))`), or that it is gone (`Some(None)`).
   */
  function Verdict(ev: Inbound, k: string): Option<Option<int>>
  {
    if Handled(ev) && Names(ev, k) then
      Some(if IsUpdate(ev.msg) then ev.msg.value else None)
    else None
  }

  /**
   * Last-write-wins reference: the entry for `k` after a run of frames is
   * the verdict of the last frame about `k`, or the starting entry if no
   * frame mentions it.
   */
  function LastWord(counters: Counters, evs: seq<Inbound>, k: string): Option<int>
    decreases |evs|
  {
    if evs == [] then Lookup(counters, k)
    else
      match Verdict(evs[|evs| - 1], k)
      case Some(w) => w
      case None => LastWord(counters, evs[..|evs| - 1], k)
  }

  /** Receiving frames one by one leaves each counter as the last frame about it says. */
  lemma {:induction false} LastWriteWins(counters: Counters, evs: seq<Inbound>, k: string)
    ensures Lookup(ApplyAll(counters, evs), k) == LastWord(counters, evs, k)
    decreases |evs|
  {
    if evs != [] {
      LastWriteWins(counters, evs[..|evs| - 1], k);
    }
  }

  /**
   * Two runs of frames that agree on the last word about every counter give
   * the same map: intermediate values do not matter.
   */
  lemma Convergence(counters: Counters, evs1: seq<Inbound>, evs2: seq<Inbound>)
    requires forall k :: LastWord(counters, evs1, k) == LastWord(counters, evs2, k)
    ensures ApplyAll(counters, evs1) == ApplyAll(counters, evs2)
  {
    var r1, r2 := ApplyAll(counters, evs1), ApplyAll(counters, evs2);
    forall k
      ensures Lookup(r1, k) == Lookup(r2, k)
    {
      LastWriteWins(counters, evs1, k);
      LastWriteWins(counters, evs2, k);
    }
    assert r1.Keys == r2.Keys by {
      forall k | k in r1 ensures k in r2 { assert Lookup(r1, k).Some?; }
      forall k | k in r2 ensures k in r1 { assert Lookup(r2, k).Some?; }
    }
    forall k | k in r1 ensures r1[k] == r2[k] { assert Lookup(r1, k) == Lookup(r2, k); }
  }
}

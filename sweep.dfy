/**
 * The unthreaded light change of `LightManager._set_lights` and the retry loop
 * of `set_light_stream`, stated over the device states as values. Every call
 * of `color` consumes the next Air of an oracle `air`, indexed by a running
 * call count `k`.
 */
module Sweeping {

  import opened Wire
  import opened Bulbs

  /** The most passes one queued vector gets. */
  const MaxPasses: nat := 5

  /** The most calls `set_light_stream` makes to one device. */
  const MaxAttempts: nat := 4

  /** The streaming priority. */
  const StreamPriority: int := 3

  /** `reinit` on every device: success flags cleared, all else kept. */
  function ReinitAll(sts: seq<BulbState>): (r: seq<BulbState>)
    ensures |r| == |sts|
    ensures forall d :: 0 <= d < |sts| ==> r[d] == sts[d].(success := false)
  {
    seq(|sts|, d requires 0 <= d < |sts| => sts[d].(success := false))
  }

  /**
   * The re-sweep test of one device: the raw requested token differs from
   * the state, or both are the device's own "off" code.
   */
  predicate Unsettled(kind: Kind, state: string, token: string)
  {
    token != state || (token == Convert(kind, Off) && state == Convert(kind, Off))
  }

  predicate NeedsResweep(kinds: seq<Kind>, sts: seq<BulbState>, colors: seq<string>)
    requires |sts| <= |kinds| && |sts| <= |colors|
  {
    exists c :: 0 <= c < |sts| && Unsettled(kinds[c], sts[c].state, colors[c])
  }

  /**
   * The outcome of the passes over one vector: device states, calls made
   * (the oracle position), whether an exception escaped, the indices of the
   * devices called in order, and how many full passes were completed.
   */
  datatype Sweep = Sweep(sts: seq<BulbState>, k: nat, crashed: bool, calls: seq<nat>, passes: nat)

  /** The outcome of one step of a pass: states, oracle position, crash, devices called. */
  datatype Visited = Visited(sts: seq<BulbState>, k: nat, crashed: bool, calls: seq<nat>)

  /** Device `i`'s turn in a pass: `color` is called only when its success flag is clear. */
  function VisitOne(kinds: seq<Kind>, sts: seq<BulbState>, colors: seq<string>, priority: int,
                    air: nat -> Air, k: nat, i: nat, calls: seq<nat>): (v: Visited)
    requires |kinds| == |sts| && i < |sts| && i < |colors|
    ensures |v.sts| == |sts| && forall d :: 0 <= d < |sts| && d != i ==> v.sts[d] == sts[d]
    ensures sts[i].success ==> v == Visited(sts, k, false, calls)
    ensures !sts[i].success ==> v.k == k + 1 && v.calls == calls + [i]
  {
    if sts[i].success then Visited(sts, k, false, calls)
    else
      var st := ColorSpec(kinds[i], sts[i], Convert(kinds[i], colors[i]), priority, air(k));
      Visited(sts[i := st.after], k + 1, st.reply == Crash, calls + [i])
  }

  /**
   * The rest of one pass of the inner loop of `_set_lights`, from device `i`.
   * The token is converted before the success test, so a vector shorter
   * than the device list raises there (IndexError) even for a device that
   * already succeeded; an exception ends the pass.
   */
  function Pass(kinds: seq<Kind>, sts: seq<BulbState>, colors: seq<string>, priority: int,
                air: nat -> Air, k: nat, i: nat, calls: seq<nat>): (r: Visited)
    requires |kinds| == |sts| && i <= |sts|
    ensures |r.sts| == |sts|
    ensures !r.crashed && i < |sts| ==> |sts| <= |colors|
    decreases |sts| - i
  {
    if i == |sts| then Visited(sts, k, false, calls)
    else if i >= |colors| then Visited(sts, k, true, calls)
    else
      var v := VisitOne(kinds, sts, colors, priority, air, k, i, calls);
      if v.crashed then v
      else Pass(kinds, v.sts, colors, priority, air, v.k, i + 1, v.calls)
  }

  /**
   * The passes from pass number `passes` on. Resetting `i` to 0 after the
   * last device starts a new pass; after a pass either the vector is
   * settled, or this was the fifth pass, or a new pass starts. An exception
   * ends everything without completing the pass.
   */
  function Passes(kinds: seq<Kind>, sts: seq<BulbState>, colors: seq<string>, priority: int,
                  air: nat -> Air, k: nat, passes: nat, calls: seq<nat>): (r: Sweep)
    requires |kinds| == |sts| && passes < MaxPasses
    ensures |r.sts| == |sts|
    decreases MaxPasses - passes
  {
    var p := Pass(kinds, sts, colors, priority, air, k, 0, calls);
    if p.crashed then Sweep(p.sts, p.k, true, p.calls, passes)
    else if passes + 1 == MaxPasses || !NeedsResweep(kinds, p.sts, colors) then
      Sweep(p.sts, p.k, false, p.calls, passes + 1)
    else Passes(kinds, p.sts, colors, priority, air, p.k, passes + 1, p.calls)
  }

  /** All the passes one queued vector gets; with no devices the loop never runs. */
  function Sweeps(kinds: seq<Kind>, sts: seq<BulbState>, colors: seq<string>, priority: int,
                  air: nat -> Air, k: nat): (r: Sweep)
    requires |kinds| == |sts|
    ensures |r.sts| == |sts|
  {
    if sts == [] then Sweep(sts, k, false, [], 0)
    else Passes(kinds, sts, colors, priority, air, k, 0, [])
  }

  /** The outcome of draining the queue: states, vectors left, oracle position, crash, vectors taken. */
  datatype Drained = Drained(sts: seq<BulbState>, rest: seq<seq<string>>, k: nat, crashed: bool,
                             served: seq<seq<string>>)

  /**
   * The queue loop of `_set_lights`: vectors are taken first in, first out;
   * every vector after the first starts from cleared success flags; an
   * exception ends the loop with the rest of the queue still queued.
   */
  function Drain(kinds: seq<Kind>, sts: seq<BulbState>, queue: seq<seq<string>>, priority: int,
                 air: nat -> Air, k: nat, first: bool, served: seq<seq<string>>): (r: Drained)
    requires |kinds| == |sts|
    ensures |r.sts| == |sts|
    decreases |queue|
  {
    if queue == [] then Drained(sts, [], k, false, served)
    else
      var start := if first then sts else ReinitAll(sts);
      var w := Sweeps(kinds, start, queue[0], priority, air, k);
      if w.crashed then Drained(w.sts, queue[1..], w.k, true, served + [queue[0]])
      else Drain(kinds, w.sts, queue[1..], priority, air, w.k, false, served + [queue[0]])
  }

  // ------------------------------------------------------ sweep lemmas

  /** Counting within a pass: each call made to a device index, one oracle position per call. */
  lemma {:induction false} PassBounds(kinds: seq<Kind>, sts: seq<BulbState>, colors: seq<string>, priority: int,
                                      air: nat -> Air, k: nat, i: nat, calls: seq<nat>)
    requires |kinds| == |sts| && i <= |sts|
    ensures var r := Pass(kinds, sts, colors, priority, air, k, i, calls);
      && |calls| <= |r.calls| && r.calls[..|calls|] == calls
      && r.k == k + |r.calls| - |calls|
      && (forall c :: |calls| <= c < |r.calls| ==> i <= r.calls[c] < |sts|)
    decreases |sts| - i
  {
    if i < |sts| && i < |colors| {
      var v := VisitOne(kinds, sts, colors, priority, air, k, i, calls);
      if !v.crashed {
        PassBounds(kinds, v.sts, colors, priority, air, v.k, i + 1, v.calls);
      }
    }
  }

  /**
   * Counting over the passes: at most five, each call made to a device
   * index, one oracle position per call.
   */
  lemma {:induction false} PassesBounds(kinds: seq<Kind>, sts: seq<BulbState>, colors: seq<string>, priority: int,
                                        air: nat -> Air, k: nat, passes: nat, calls: seq<nat>)
    requires |kinds| == |sts| && passes < MaxPasses
    ensures var r := Passes(kinds, sts, colors, priority, air, k, passes, calls);
      && passes <= r.passes <= MaxPasses
      && |calls| <= |r.calls| && r.calls[..|calls|] == calls
      && r.k == k + |r.calls| - |calls|
      && (forall c :: |calls| <= c < |r.calls| ==> r.calls[c] < |sts|)
    decreases MaxPasses - passes
  {
    var p := Pass(kinds, sts, colors, priority, air, k, 0, calls);
    PassBounds(kinds, sts, colors, priority, air, k, 0, calls);
    if !p.crashed && !(passes + 1 == MaxPasses || !NeedsResweep(kinds, p.sts, colors)) {
      PassesBounds(kinds, p.sts, colors, priority, air, p.k, passes + 1, p.calls);
    }
  }

  /**
   * Within a pass, a device whose success flag is set is not called and
   * its state is not touched.
   */
  lemma {:induction false} PassSparesSucceeded(kinds: seq<Kind>, sts: seq<BulbState>, colors: seq<string>,
                                               priority: int, air: nat -> Air, k: nat, i: nat,
                                               calls: seq<nat>, d: nat)
    requires |kinds| == |sts| && i <= |sts| && d < |sts| && sts[d].success
    ensures var r := Pass(kinds, sts, colors, priority, air, k, i, calls);
      r.sts[d] == sts[d] && (d in r.calls ==> d in calls)
    decreases |sts| - i
  {
    if i < |sts| && i < |colors| {
      var v := VisitOne(kinds, sts, colors, priority, air, k, i, calls);
      assert v.sts[d] == sts[d];
      assert d in v.calls ==> d in calls;
      if !v.crashed {
        PassSparesSucceeded(kinds, v.sts, colors, priority, air, v.k, i + 1, v.calls, d);
      }
    }
  }

  /**
   * A device whose success flag is set is never called again for the same
   * vector, and its state is not touched; success flags are never cleared
   * during the passes.
   */
  lemma {:induction false} PassesSpareSucceeded(kinds: seq<Kind>, sts: seq<BulbState>, colors: seq<string>,
                                                priority: int, air: nat -> Air, k: nat, passes: nat,
                                                calls: seq<nat>, d: nat)
    requires |kinds| == |sts| && passes < MaxPasses && d < |sts| && sts[d].success
    ensures var r := Passes(kinds, sts, colors, priority, air, k, passes, calls);
      r.sts[d] == sts[d] && (d in r.calls ==> d in calls)
    decreases MaxPasses - passes
  {
    var p := Pass(kinds, sts, colors, priority, air, k, 0, calls);
    PassSparesSucceeded(kinds, sts, colors, priority, air, k, 0, calls, d);
    if !p.crashed && !(passes + 1 == MaxPasses || !NeedsResweep(kinds, p.sts, colors)) {
      PassesSpareSucceeded(kinds, p.sts, colors, priority, air, p.k, passes + 1, p.calls, d);
    }
  }

  /** Success flags set before the passes are still set after them. */
  lemma SweepsKeepSuccess(kinds: seq<Kind>, sts: seq<BulbState>, colors: seq<string>,
                          priority: int, air: nat -> Air, k: nat, d: nat)
    requires |kinds| == |sts| && d < |sts| && sts[d].success
    ensures Sweeps(kinds, sts, colors, priority, air, k).sts[d].success
  {
    PassesSpareSucceeded(kinds, sts, colors, priority, air, k, 0, [], d);
  }

  /**
   * The passes stop before the fifth only when the vector is settled, and
   * an exception is the only way to stop in the middle of a pass.
   */
  lemma {:induction false} PassesStopSettled(kinds: seq<Kind>, sts: seq<BulbState>, colors: seq<string>,
                                             priority: int, air: nat -> Air, k: nat, passes: nat,
                                             calls: seq<nat>)
    requires |kinds| == |sts| && 0 < |sts| && passes < MaxPasses
    ensures var r := Passes(kinds, sts, colors, priority, air, k, passes, calls);
      !r.crashed ==> |sts| <= |colors| && passes < r.passes
                     && (r.passes < MaxPasses ==> !NeedsResweep(kinds, r.sts, colors))
    decreases MaxPasses - passes
  {
    var p := Pass(kinds, sts, colors, priority, air, k, 0, calls);
    if !p.crashed && !(passes + 1 == MaxPasses || !NeedsResweep(kinds, p.sts, colors)) {
      PassesStopSettled(kinds, p.sts, colors, priority, air, p.k, passes + 1, p.calls);
    }
  }

  /**
   * A vector shorter than the device list always ends in the IndexError
   * during the first pass, and no device from its length on is ever called.
   */
  lemma {:induction false} ShortVectorCrashes(kinds: seq<Kind>, sts: seq<BulbState>, colors: seq<string>,
                                              priority: int, air: nat -> Air, k: nat, i: nat, calls: seq<nat>)
    requires |kinds| == |sts| && i <= |colors| < |sts|
    ensures var r := Pass(kinds, sts, colors, priority, air, k, i, calls);
      r.crashed && forall c :: |calls| <= c < |r.calls| ==> r.calls[c] < |colors|
    decreases |sts| - i
  {
    if i < |colors| {
      var v := VisitOne(kinds, sts, colors, priority, air, k, i, calls);
      assert |calls| <= |v.calls| && forall c :: |calls| <= c < |v.calls| ==> v.calls[c] == i;
      if !v.crashed {
        var r := Pass(kinds, v.sts, colors, priority, air, v.k, i + 1, v.calls);
        assert Pass(kinds, sts, colors, priority, air, k, i, calls) == r;
        ShortVectorCrashes(kinds, v.sts, colors, priority, air, v.k, i + 1, v.calls);
        PassBounds(kinds, v.sts, colors, priority, air, v.k, i + 1, v.calls);
        assert forall c :: |calls| <= c < |v.calls| ==> r.calls[c] == v.calls[c];
      }
    }
  }

  /** So the whole vector raises in its first pass. */
  lemma ShortVectorSweepCrashes(kinds: seq<Kind>, sts: seq<BulbState>, colors: seq<string>,
                                priority: int, air: nat -> Air, k: nat)
    requires |kinds| == |sts| && |colors| < |sts|
    ensures var r := Sweeps(kinds, sts, colors, priority, air, k);
      r.crashed && r.passes == 0 && forall c :: 0 <= c < |r.calls| ==> r.calls[c] < |colors|
  {
    ShortVectorCrashes(kinds, sts, colors, priority, air, k, 0, []);
  }

  // ------------------------------------------------------ drain lemmas

  /**
   * First in, first out: the vectors taken, followed by those left, are the
   * queue; everything is taken unless an exception stopped the loop.
   */
  lemma {:induction false} DrainFifo(kinds: seq<Kind>, sts: seq<BulbState>, queue: seq<seq<string>>, priority: int,
                                     air: nat -> Air, k: nat, first: bool, served: seq<seq<string>>)
    requires |kinds| == |sts|
    ensures var r := Drain(kinds, sts, queue, priority, air, k, first, served);
      r.served + r.rest == served + queue && (!r.crashed ==> r.rest == [])
      && |served| <= |r.served| && (queue != [] ==> |served| < |r.served|)
    decreases |queue|
  {
    if queue != [] {
      var start := if first then sts else ReinitAll(sts);
      var w := Sweeps(kinds, start, queue[0], priority, air, k);
      assert served + queue == (served + [queue[0]]) + queue[1..];
      if !w.crashed {
        DrainFifo(kinds, w.sts, queue[1..], priority, air, w.k, false, served + [queue[0]]);
      }
    }
  }

  // ---------------------------------------------------------- streaming

  /** The outcome of the retry loop on one device: its state, oracle position, crash, calls made. */
  datatype Attempt = Attempt(s: BulbState, k: nat, crashed: bool, calls: nat)

  /**
   * `set_light_stream`'s loop on one device: call `color(token, 3)` until it
   * answers True or four calls were made; an exception ends everything.
   * At most four calls; a run that had calls to spare stopped because a
   * call answered True or raised; every call moved the oracle on by one.
   */
  function Attempts(kind: Kind, s: BulbState, token: string, air: nat -> Air, k: nat, calls: nat): (r: Attempt)
    requires calls <= MaxAttempts
    ensures calls <= r.calls <= MaxAttempts
    ensures r.k == k + r.calls - calls
    ensures calls < MaxAttempts ==> calls < r.calls
    decreases MaxAttempts - calls
  {
    if calls == MaxAttempts then Attempt(s, k, false, calls)
    else
      var st := ColorSpec(kind, s, token, StreamPriority, air(k));
      if st.reply == Retry then Attempts(kind, st.after, token, air, k + 1, calls + 1)
      else Attempt(st.after, k + 1, st.reply == Crash, calls + 1)
  }

  /** A device that answers True at once is called exactly once. */
  lemma AttemptsStopAtDone(kind: Kind, s: BulbState, token: string, air: nat -> Air, k: nat)
    requires ColorSpec(kind, s, token, StreamPriority, air(k)).reply == Done
    ensures Attempts(kind, s, token, air, k, 0)
         == Attempt(ColorSpec(kind, s, token, StreamPriority, air(k)).after, k + 1, false, 1)
  {
  }

  /** The targets of a stream: a group, or a device index (Python indexing, negatives from the end). */
  datatype Target = Group(name: string) | Device(index: int)

  /** The outcome of one streamed payload. */
  datatype Streamed = Streamed(sts: seq<BulbState>, k: nat, crashed: bool)

  /** The group branch: every device of the group in order, from device `j` on. */
  function StreamGroup(kinds: seq<Kind>, groups: seq<string>, sts: seq<BulbState>, name: string, color: string,
                       air: nat -> Air, k: nat, j: nat): (r: Streamed)
    requires |kinds| == |sts| == |groups| && j <= |sts|
    ensures |r.sts| == |sts|
    decreases |sts| - j
  {
    if j == |sts| then Streamed(sts, k, false)
    else if groups[j] != name then StreamGroup(kinds, groups, sts, name, color, air, k, j + 1)
    else
      var a := Attempts(kinds[j], sts[j], Convert(kinds[j], color), air, k, 0);
      if a.crashed then Streamed(sts[j := a.s], a.k, true)
      else StreamGroup(kinds, groups, sts[j := a.s], name, color, air, a.k, j + 1)
  }

  /** Python's `devices[index]`: None where it raises IndexError. */
  function PyIndex(n: nat, index: int): (r: Option<nat>)
    ensures r.Some? <==> -(n as int) <= index < n
    ensures r.Some? ==> r.value < n && (r.value - index) % n == 0
  {
    if 0 <= index < n then Some(index)
    else if -(n as int) <= index < 0 then Some(n + index)
    else None
  }

  /** The single-device branch as evidently intended: the device at `index`. */
  function StreamDevice(kinds: seq<Kind>, sts: seq<BulbState>, index: int, color: string,
                        air: nat -> Air, k: nat): (r: Streamed)
    requires |kinds| == |sts|
    ensures |r.sts| == |sts|
  {
    match PyIndex(|sts|, index)
    case None => Streamed(sts, k, true)
    case Some(d) =>
      var a := Attempts(kinds[d], sts[d], Convert(kinds[d], color), air, k, 0);
      Streamed(sts[d := a.s], a.k, a.crashed)
  }

  /** The whole of `set_light_stream` before its final `reinit`. */
  function Stream(kinds: seq<Kind>, groups: seq<string>, sts: seq<BulbState>, target: Target, color: string,
                  air: nat -> Air, k: nat): (r: Streamed)
    requires |kinds| == |sts| == |groups|
    ensures |r.sts| == |sts|
  {
    match target
    case Group(name) => StreamGroup(kinds, groups, sts, name, color, air, k, 0)
    case Device(index) => StreamDevice(kinds, sts, index, color, air, k)
  }

  /**
   * `set_light_stream` as written: the single-device branch converts the
   * colour with `device`, a name bound only by the group branch's loop, so
   * it raises UnboundLocalError before touching any device.
   */
  function StreamAsWritten(kinds: seq<Kind>, groups: seq<string>, sts: seq<BulbState>, target: Target,
                           color: string, air: nat -> Air, k: nat): (r: Streamed)
    requires |kinds| == |sts| == |groups|
    ensures |r.sts| == |sts|
  {
    match target
    case Group(name) => StreamGroup(kinds, groups, sts, name, color, air, k, 0)
    case Device(_) => Streamed(sts, k, true)
  }

  /**
   * The discrepancy: streaming "1" to device 0, an idle Milight whose radio
   * works, turns it on in the intended version and never reaches it as
   * written.
   */
  lemma StreamDeviceFinding(id1: int, id2: int, air: nat -> Air)
    requires air(0).first == Radio(true, true) && air(0).second == Radio(true, true)
    ensures var kinds, groups, sts := [Milight(id1, id2)], [""], [Initial(Milight(id1, id2))];
      && Stream(kinds, groups, sts, Device(0), On, air, 0).sts[0].state == On
      && !Stream(kinds, groups, sts, Device(0), On, air, 0).crashed
      && StreamAsWritten(kinds, groups, sts, Device(0), On, air, 0) == Streamed(sts, 0, true)
  {
    var s := Initial(Milight(id1, id2));
    assert ColorSpec(Milight(id1, id2), s, On, StreamPriority, air(0)).reply == Done;
    AttemptsStopAtDone(Milight(id1, id2), s, On, air, 0);
  }

  /** A group stream touches only devices of that group. */
  lemma {:induction false} StreamGroupStaysInGroup(kinds: seq<Kind>, groups: seq<string>, sts: seq<BulbState>,
                                                   name: string, color: string, air: nat -> Air, k: nat, j: nat, d: nat)
    requires |kinds| == |sts| == |groups| && j <= |sts| && d < |sts|
    requires groups[d] != name || d < j
    ensures StreamGroup(kinds, groups, sts, name, color, air, k, j).sts[d] == sts[d]
    decreases |sts| - j
  {
    if j < |sts| {
      if groups[j] != name {
        StreamGroupStaysInGroup(kinds, groups, sts, name, color, air, k, j + 1, d);
      } else {
        var a := Attempts(kinds[j], sts[j], Convert(kinds[j], color), air, k, 0);
        if !a.crashed {
          StreamGroupStaysInGroup(kinds, groups, sts[j := a.s], name, color, air, a.k, j + 1, d);
        }
      }
    }
  }

  /** A device stream touches only the addressed device; an index out of range raises. */
  lemma StreamDeviceTouchesTarget(kinds: seq<Kind>, sts: seq<BulbState>, index: int, color: string,
                                  air: nat -> Air, k: nat)
    requires |kinds| == |sts|
    ensures var r := StreamDevice(kinds, sts, index, color, air, k);
      && (PyIndex(|sts|, index).None? ==> r == Streamed(sts, k, true))
      && (forall d :: 0 <= d < |sts| && Some(d) != PyIndex(|sts|, index) ==> r.sts[d] == sts[d])
  {
  }
}

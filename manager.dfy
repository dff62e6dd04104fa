/**
 * `LightManager`: the request vector, the queue of vectors, the lock, the
 * time gate, and the loops that drive the devices. The wall clock is a
 * parameter (`now`, the time of day) and the radio an oracle `air` indexed by
 * the running count `k` of calls to `color`.
 */
module Manager {

  import opened Wire
  import opened Json
  import opened Bulbs
  import opened Sweeping

  /** A time of day in microseconds after midnight, as `datetime.time` holds it. */
  type TimeOfDay = t: int | 0 <= t < 86400000000

  const SixAm: TimeOfDay := 21600000000

  /** The configured minimal time for a light change, 18:00. */
  const DefaultStart: TimeOfDay := 64800000000

  /** `_check_time`'s verdict: a skip or no start time passes; else 06:00 < now < start is refused. */
  function TimeGate(skip: bool, start: Option<TimeOfDay>, now: TimeOfDay): bool
  {
    skip || start.None? || !(SixAm < now < start.value)
  }

  /** With the default start time, exactly the instants strictly between 06:00 and 18:00 are refused. */
  lemma DefaultWindow(now: TimeOfDay)
    ensures !TimeGate(false, Some(DefaultStart), now) <==> 21600000000 < now < 64800000000
    ensures TimeGate(true, Some(DefaultStart), now) && TimeGate(false, None, now)
  {
  }

  // ------------------------------------------------------- device kinds

  /** The class names `set_typed_colors` is called with. */
  datatype Family = Playbulbs | Milights

  predicate InFamily(kind: Kind, f: Family)
  {
    match f
    case Playbulbs => kind.Playbulb?
    case Milights => kind.Milight?
  }

  /** How many devices are of the family. */
  function CountIn(kinds: seq<Kind>, f: Family): (c: nat)
    ensures c <= |kinds|
  {
    if kinds == [] then 0
    else (if InFamily(kinds[|kinds| - 1], f) then 1 else 0) + CountIn(kinds[..|kinds| - 1], f)
  }

  /** The index of the first device of the family; |kinds| when there is none. */
  function FirstIn(kinds: seq<Kind>, f: Family): (i: nat)
    ensures i <= |kinds|
    ensures forall j :: 0 <= j < i ==> !InFamily(kinds[j], f)
    ensures i < |kinds| ==> InFamily(kinds[i], f)
  {
    if kinds == [] then 0
    else if InFamily(kinds[0], f) then 0
    else 1 + FirstIn(kinds[1..], f)
  }

  lemma {:induction false} CountInZero(kinds: seq<Kind>, f: Family)
    ensures CountIn(kinds, f) == 0 <==> forall j :: 0 <= j < |kinds| ==> !InFamily(kinds[j], f)
  {
    if kinds != [] {
      var init := kinds[..|kinds| - 1];
      CountInZero(init, f);
      assert forall j :: 0 <= j < |init| ==> init[j] == kinds[j];
    }
  }

  lemma {:induction false} CountInAppend(a: seq<Kind>, b: seq<Kind>, f: Family)
    ensures CountIn(a + b, f) == CountIn(a, f) + CountIn(b, f)
  {
    if b == [] {
      assert a + b == a;
    } else {
      CountInAppend(a, b[..|b| - 1], f);
      assert (a + b)[..|a + b| - 1] == a + b[..|b| - 1];
    }
  }

  /** Every device of the family lies at or after the first one. */
  lemma FamilyAfterFirst(kinds: seq<Kind>, f: Family)
    ensures FirstIn(kinds, f) + CountIn(kinds, f) <= |kinds|
  {
    var i := FirstIn(kinds, f);
    assert kinds == kinds[..i] + kinds[i..];
    CountInAppend(kinds[..i], kinds[i..], f);
    CountInZero(kinds[..i], f);
  }

  /** `_get_type_index`: [count, first index], or None where it raises for a family with no device. */
  function TypeIndex(kinds: seq<Kind>, f: Family): (r: Option<(nat, nat)>)
    ensures r.None? <==> forall j :: 0 <= j < |kinds| ==> !InFamily(kinds[j], f)
    ensures r.Some? ==> r.value.0 == CountIn(kinds, f) > 0 && r.value.1 < |kinds|
    ensures r.Some? ==> InFamily(kinds[r.value.1], f)
    ensures r.Some? ==> forall j :: 0 <= j < r.value.1 ==> !InFamily(kinds[j], f)
  {
    CountInZero(kinds, f);
    if CountIn(kinds, f) == 0 then None else Some((CountIn(kinds, f), FirstIn(kinds, f)))
  }

  // ------------------------------------------------------------ vectors

  /**
   * Python's slice assignment `xs[lo:hi] = ys` with lo <= hi: both bounds
   * are clamped to the length of `xs`.
   */
  function Splice(xs: seq<string>, lo: nat, hi: nat, ys: seq<string>): (r: seq<string>)
    requires lo <= hi
  {
    var a := if lo < |xs| then lo else |xs|;
    var b := if hi < |xs| then hi else |xs|;
    xs[..a] + ys + xs[b..]
  }

  /** In range and with a matching length, a slice assignment overwrites exactly that window. */
  lemma SpliceInRange(xs: seq<string>, lo: nat, ys: seq<string>)
    requires lo + |ys| <= |xs|
    ensures var r := Splice(xs, lo, lo + |ys|, ys);
      |r| == |xs|
      && (forall i :: lo <= i < lo + |ys| ==> r[i] == ys[i - lo])
      && (forall i :: 0 <= i < |xs| && !(lo <= i < lo + |ys|) ==> r[i] == xs[i])
  {
  }

  /**
   * Past the end, the replacement is appended instead: a type whose first
   * device lies beyond the vector makes the vector longer.
   */
  lemma SplicePastEnd(xs: seq<string>, lo: nat, ys: seq<string>)
    requires |xs| <= lo
    ensures Splice(xs, lo, lo + |ys|, ys) == xs + ys
  {
  }

  /**
   * A colour vector under construction, whether it is a Python `str` (a
   * string hexvalues is stored as it is, and indexing it gives its
   * characters), and whether building it raised.
   */
  datatype Prep = Prep(colors: seq<string>, text: bool, crashed: bool)

  /**
   * `set_typed_colors`: raises when no device is of the family or when the
   * value has no length; a length other than the family's size changes
   * nothing; otherwise the window from the family's first device is
   * replaced, and a `str` vector, which refuses slice assignment, raises.
   */
  function TypedColors(kinds: seq<Kind>, colors: seq<string>, text: bool, colorargs: Option<seq<string>>, f: Family): (p: Prep)
    ensures p.text == text
    ensures p.crashed <==> TypeIndex(kinds, f).None? || colorargs.None?
                           || (text && TypeIndex(kinds, f).value.0 == |colorargs.value|)
    ensures p.crashed || text || TypeIndex(kinds, f).value.0 != |colorargs.value| ==> p.colors == colors
  {
    var t := TypeIndex(kinds, f);
    if t.None? || colorargs.None? then Prep(colors, text, true)
    else
      var (count, first) := t.value;
      if count != |colorargs.value| then Prep(colors, text, false)
      else if text then Prep(colors, text, true)
      else Prep(Splice(colors, first, first + count, colorargs.value), false, false)
  }

  /**
   * On a vector with one entry per device, an accepted typed request writes
   * exactly the window of the family's size from its first device.
   */
  lemma TypedColorsWindow(kinds: seq<Kind>, colors: seq<string>, colorargs: seq<string>, f: Family)
    requires |colors| == |kinds| && TypeIndex(kinds, f).Some? && TypeIndex(kinds, f).value.0 == |colorargs|
    ensures var (count, first) := TypeIndex(kinds, f).value;
      var p := TypedColors(kinds, colors, false, Some(colorargs), f);
      && !p.crashed && |p.colors| == |colors|
      && (forall i :: first <= i < first + count ==> p.colors[i] == colorargs[i - first])
      && (forall i :: 0 <= i < |colors| && !(first <= i < first + count) ==> p.colors[i] == colors[i])
  {
    var (count, first) := TypeIndex(kinds, f).value;
    FamilyAfterFirst(kinds, f);
    SpliceInRange(colors, first, colorargs);
  }

  /** The devices `get_group` masks out. */
  predicate Excluded(group: string, subgroup: string, wanted: JValue, wantedSub: JValue)
  {
    JStr(group) != wanted || (wantedSub != JNull && JStr(subgroup) != wantedSub)
  }

  /** `get_group`'s effect: an excluded device's entry becomes "-1"; nothing else changes. */
  function GroupMasked(colors: seq<string>, excluded: seq<bool>): (r: seq<string>)
    ensures |r| == |colors|
    ensures forall i :: 0 <= i < |r| && r[i] != colors[i] ==> r[i] == Skip && i < |excluded| && excluded[i]
    ensures forall i :: 0 <= i < |r| && i < |excluded| && excluded[i] ==> r[i] == Skip
  {
    seq(|colors|, i requires 0 <= i < |colors| => if i < |excluded| && excluded[i] then Skip else colors[i])
  }

  /** The devices `get_group` masks out, by their configured group and subgroup. */
  function Exclusions(groups: seq<string>, subgroups: seq<string>, group: JValue, subgroup: JValue): (r: seq<bool>)
    requires |groups| == |subgroups|
    ensures |r| == |groups|
    ensures forall d :: 0 <= d < |r| ==> r[d] == Excluded(groups[d], subgroups[d], group, subgroup)
  {
    seq(|groups|, d requires 0 <= d < |groups| => Excluded(groups[d], subgroups[d], group, subgroup))
  }

  /**
   * `get_group` on a vector: a list gets "-1" at every excluded device and
   * raises IndexError for an excluded device past its end; a `str` refuses
   * item assignment, so it raises at the first excluded device and is left
   * as it was.
   */
  function GroupMask(colors: seq<string>, text: bool, excluded: seq<bool>): (p: Prep)
    ensures p.text == text
    ensures text ==> p.colors == colors && (p.crashed <==> exists d :: 0 <= d < |excluded| && excluded[d])
    ensures !text ==> p.colors == GroupMasked(colors, excluded)
                      && (p.crashed <==> exists d :: |colors| <= d < |excluded| && excluded[d])
  {
    if text then Prep(colors, true, exists d :: 0 <= d < |excluded| && excluded[d])
    else Prep(GroupMasked(colors, excluded), false, exists d :: |colors| <= d < |excluded| && excluded[d])
  }

  /** All "1" when every state is "0", else all "0". */
  function ToggleOf(states: seq<string>): (r: seq<string>)
    ensures |r| == |states|
    ensures (forall j :: 0 <= j < |states| ==> states[j] == Off) ==> forall i :: 0 <= i < |r| ==> r[i] == On
    ensures (exists j :: 0 <= j < |states| && states[j] != Off) ==> forall i :: 0 <= i < |r| ==> r[i] == Off
  {
    if forall j :: 0 <= j < |states| ==> states[j] == Off
    then seq(|states|, _ => On) else seq(|states|, _ => Off)
  }

  /**
   * A device list with a Playbulb never toggles on: a Playbulb's state is
   * never "0", since its off code is "00000000".
   */
  lemma ToggleWithPlaybulb(kinds: seq<Kind>, states: seq<string>, d: nat)
    requires |kinds| == |states| && d < |states| && kinds[d].Playbulb? && states[d] != Off
    ensures forall i :: 0 <= i < |states| ==> ToggleOf(states)[i] == Off
  {
  }

  predicate Distinct(devices: seq<Bulb>)
  {
    devices == [] || (devices[0] !in devices[1..] && Distinct(devices[1..]))
  }

  lemma UpdateTwice<T>(s: seq<T>, i: nat, x: T, y: T)
    requires i < |s|
    ensures s[i := x][i := y] == s[i := y]
  {
  }

  /** Two positions of a list without repeats hold different devices. */
  lemma {:induction false} DistinctApart(devices: seq<Bulb>, i: nat, j: nat)
    requires Distinct(devices) && i < |devices| && j < |devices| && i != j
    ensures devices[i] != devices[j]
  {
    if i > 0 && j > 0 {
      DistinctApart(devices[1..], i - 1, j - 1);
    } else if i == 0 {
      assert devices[j] == devices[1..][j - 1];
    } else {
      assert devices[i] == devices[1..][i - 1];
    }
  }

  /** The passes from pass number `tries` on, from states `sts`, come out as `target`. */
  predicate PassesReach(kinds: seq<Kind>, sts: seq<BulbState>, vec: seq<string>, priority: int,
                        air: nat -> Air, k: nat, tries: nat, calls: seq<nat>, target: Sweep)
    requires |kinds| == |sts| && tries < MaxPasses
  {
    Passes(kinds, sts, vec, priority, air, k, tries, calls) == target
  }

  // -------------------------------------------------------- state values

  /** The configuration: each device's kind, group and subgroup, by index. */
  datatype Config = Config(kinds: seq<Kind>, groups: seq<string>, subgroups: seq<string>)
  {
    predicate Valid()
    {
      |kinds| == |groups| == |subgroups|
    }
  }

  /** The manager as a value: the devices' states and every field a request touches. */
  datatype Snap = Snap(states: seq<BulbState>, colors: seq<string>, text: bool, queue: seq<seq<string>>,
                       locked: bool, lockcount: int, skiptime: bool, starttime: Option<TimeOfDay>, priority: int)

  /** What one operation does: the manager's new state, the oracle count, and whether an exception escaped. */
  datatype Effect = Effect(s: Snap, k: nat, crashed: bool)

  /**
   * `run` on a manager state: a request the time gate refuses changes
   * nothing (a pending skip would have passed it); one it passes is queued,
   * and the queue is drained when unlocked or after two refusals, otherwise
   * the refusal is counted. `_set_lights` catches every exception.
   */
  function Ran(kinds: seq<Kind>, s: Snap, now: TimeOfDay, air: nat -> Air, k: nat): (e: Effect)
    requires |s.states| == |kinds|
    ensures |e.s.states| == |s.states| && !e.s.skiptime && !e.crashed
    ensures e.s.colors == s.colors && e.s.text == s.text && e.s.priority == s.priority && e.s.starttime == s.starttime
    ensures 0 <= s.lockcount <= 2 ==> 0 <= e.s.lockcount <= 2
  {
    if !TimeGate(s.skiptime, s.starttime, now) then Effect(s, k, false)
    else if !s.locked || s.lockcount == 2 then
      var d := Drain(kinds, s.states, s.queue + [s.colors], s.priority, air, k, true, []);
      Effect(s.(states := ReinitAll(d.sts), queue := d.rest, locked := false, lockcount := 0, skiptime := false),
             d.k, false)
    else
      Effect(s.(queue := s.queue + [s.colors], lockcount := s.lockcount + 1, skiptime := false), k, false)
  }

  /**
   * A request that passes the time gate is never dropped: it waits at the
   * back of the queue, or the queue with it at the back is drained first in,
   * first out, and whatever an exception left unserved stays queued.
   */
  lemma RunEnqueues(kinds: seq<Kind>, s: Snap, now: TimeOfDay, air: nat -> Air, k: nat)
    requires |s.states| == |kinds|
    ensures var e := Ran(kinds, s, now, air, k);
      && (!TimeGate(s.skiptime, s.starttime, now) ==> e == Effect(s, k, false))
      && (TimeGate(s.skiptime, s.starttime, now) && s.locked && s.lockcount != 2 ==>
            e.s.queue == s.queue + [s.colors] && e.s.states == s.states && e.s.lockcount == s.lockcount + 1)
      && (TimeGate(s.skiptime, s.starttime, now) && (!s.locked || s.lockcount == 2) ==>
            var d := Drain(kinds, s.states, s.queue + [s.colors], s.priority, air, k, true, []);
            && d.served + e.s.queue == s.queue + [s.colors] && !e.s.locked && e.s.lockcount == 0
            && forall i :: 0 <= i < |e.s.states| ==> !e.s.states[i].success)
  {
    DrainFifo(kinds, s.states, s.queue + [s.colors], s.priority, air, k, true, []);
  }

  /** The colour of every device state, in order. */
  function ColoursOf(sts: seq<BulbState>): (r: seq<string>)
    ensures |r| == |sts| && forall d :: 0 <= d < |sts| ==> r[d] == sts[d].state
  {
    seq(|sts|, d requires 0 <= d < |sts| => sts[d].state)
  }

  // ------------------------------------------------------------ manager

  class LightManager {
    const devices: seq<Bulb>
    var colors: seq<string>
    /** Whether `colors` is a `str`: a string hexvalues is stored as it is. */
    var text: bool
    var queue: seq<seq<string>>
    var locked: bool
    var lockcount: int
    var skiptime: bool
    var starttime: Option<TimeOfDay>
    var priority: int

    predicate Valid()
      reads this
    {
      Distinct(devices) && 0 <= lockcount <= 2
    }

    function Kinds(): (r: seq<Kind>)
      ensures |r| == |devices| && forall d :: 0 <= d < |devices| ==> r[d] == devices[d].kind
    {
      seq(|devices|, d requires 0 <= d < |devices| => devices[d].kind)
    }

    function Groups(): (r: seq<string>)
      ensures |r| == |devices| && forall d :: 0 <= d < |devices| ==> r[d] == devices[d].group
    {
      seq(|devices|, d requires 0 <= d < |devices| => devices[d].group)
    }

    function States(): (r: seq<BulbState>)
      reads devices
      ensures |r| == |devices| && forall d :: 0 <= d < |devices| ==> r[d] == devices[d].St()
    {
      seq(|devices|, d requires 0 <= d < |devices| reads devices => devices[d].St())
    }

    function Subgroups(): (r: seq<string>)
      ensures |r| == |devices| && forall d :: 0 <= d < |devices| ==> r[d] == devices[d].subgroup
    {
      seq(|devices|, d requires 0 <= d < |devices| => devices[d].subgroup)
    }

    function Configuration(): (c: Config)
      ensures c.Valid() && c.kinds == Kinds() && c.groups == Groups() && c.subgroups == Subgroups()
    {
      Config(Kinds(), Groups(), Subgroups())
    }

    function Snapshot(): Snap
      reads this, devices
    {
      Snap(States(), colors, text, queue, locked, lockcount, skiptime, starttime, priority)
    }

    /** `get_state`: the colour of every device. */
    function GetState(): (r: seq<string>)
      reads devices
      ensures |r| == |devices| && forall d :: 0 <= d < |devices| ==> r[d] == devices[d].state
      ensures r == ColoursOf(States())
    {
      seq(|devices|, d requires 0 <= d < |devices| reads devices => devices[d].state)
    }

    /** The manager as configured: every device off, an 18:00 start, nothing queued or locked. */
    constructor(devices: seq<Bulb>)
      requires Distinct(devices)
      ensures this.devices == devices && Valid()
      ensures colors == seq(|devices|, _ => Off) && !text && queue == []
      ensures !locked && lockcount == 0 && !skiptime && starttime == Some(DefaultStart) && priority == 0
    {
      this.devices := devices;
      colors := seq(|devices|, _ => Off);
      text := false;
      queue := [];
      locked := false;
      lockcount := 0;
      skiptime := false;
      starttime := Some(DefaultStart);
      priority := 0;
    }

    /** `set_colors`, with a list or, when `asText`, a `str`. */
    method SetColors(c: seq<string>, asText: bool)
      modifies this
      ensures colors == c && text == asText
      ensures queue == old(queue) && locked == old(locked) && lockcount == old(lockcount)
      ensures skiptime == old(skiptime) && starttime == old(starttime) && priority == old(priority)
    {
      colors, text := c, asText;
    }

    /** `set_lock`. */
    method SetLock(isLocked: bool)
      modifies this
      ensures locked == isLocked
      ensures colors == old(colors) && text == old(text) && queue == old(queue) && lockcount == old(lockcount)
      ensures skiptime == old(skiptime) && starttime == old(starttime) && priority == old(priority)
    {
      locked := isLocked;
    }

    /** `skip_time`: server-wide drops the start time, otherwise only the next check is skipped. */
    method SkipTime(serverwide: bool)
      modifies this
      ensures serverwide ==> starttime.None? && skiptime == old(skiptime)
      ensures !serverwide ==> skiptime && starttime == old(starttime)
      ensures colors == old(colors) && text == old(text) && queue == old(queue) && locked == old(locked)
      ensures lockcount == old(lockcount) && priority == old(priority)
    {
      if serverwide {
        starttime := None;
      } else {
        skiptime := true;
      }
    }

    /** `_check_time`: the verdict, and a pending skip is used up. */
    method CheckTime(now: TimeOfDay) returns (ok: bool)
      modifies this
      ensures ok == TimeGate(old(skiptime), old(starttime), now) && !skiptime
      ensures colors == old(colors) && text == old(text) && queue == old(queue) && locked == old(locked)
      ensures lockcount == old(lockcount) && starttime == old(starttime) && priority == old(priority)
    {
      if skiptime || starttime.None? {
        skiptime := false;
        return true;
      }
      ok := !(SixAm < now < starttime.value);
    }

    /** `_get_type_index`: the counting loop. */
    method GetTypeIndex(f: Family) returns (r: Option<(nat, nat)>)
      ensures r == TypeIndex(Kinds(), f)
    {
      var i := 0;
      var count := 0;
      var firstindex := 0;
      while i < |devices|
        invariant 0 <= i <= |devices|
        invariant count == CountIn(Kinds()[..i], f)
        invariant count == 0 ==> forall j :: 0 <= j < i ==> !InFamily(devices[j].kind, f)
        invariant count > 0 ==> firstindex == FirstIn(Kinds(), f) < i
      {
        assert Kinds()[..i + 1][..i] == Kinds()[..i];
        if InFamily(devices[i].kind, f) {
          if count == 0 {
            firstindex := i;
          }
          count := count + 1;
        }
        i := i + 1;
      }
      assert Kinds()[..i] == Kinds();
      CountInZero(Kinds(), f);
      if count == 0 {
        return None;
      }
      r := Some((count, firstindex));
    }

    /** `set_typed_colors`. */
    method SetTypedColors(colorargs: Option<seq<string>>, f: Family) returns (crashed: bool)
      modifies this
      ensures var p := TypedColors(Kinds(), old(colors), old(text), colorargs, f);
        colors == p.colors && text == p.text && crashed == p.crashed
      ensures queue == old(queue) && locked == old(locked) && lockcount == old(lockcount)
      ensures skiptime == old(skiptime) && starttime == old(starttime) && priority == old(priority)
    {
      var cvals := GetTypeIndex(f);
      if cvals.None? || colorargs.None? {
        return true;
      }
      crashed := false;
      var (count, first) := cvals.value;
      if count != |colorargs.value| {
        return;
      }
      if text {
        return true;
      }
      colors := Splice(colors, first, first + count, colorargs.value);
    }

    /**
     * `get_group`: writes "-1" at every excluded device; an excluded device
     * beyond the end of the vector raises IndexError, and any excluded
     * device raises TypeError on a `str`.
     */
    method GetGroup(group: JValue, subgroup: JValue) returns (crashed: bool)
      modifies this
      ensures var p := GroupMask(old(colors), old(text), Exclusions(Groups(), Subgroups(), group, subgroup));
        colors == p.colors && text == p.text && crashed == p.crashed
      ensures queue == old(queue) && locked == old(locked) && lockcount == old(lockcount)
      ensures skiptime == old(skiptime) && starttime == old(starttime) && priority == old(priority)
    {
      var ex := Exclusions(Groups(), Subgroups(), group, subgroup);
      var masked := colors;
      var cnt := 0;
      crashed := false;
      while cnt < |devices|
        invariant 0 <= cnt <= |devices| && |masked| == |colors|
        invariant forall i :: 0 <= i < |colors| ==> masked[i] == (if i < cnt && ex[i] then Skip else colors[i])
        invariant forall d :: |colors| <= d < cnt ==> !ex[d]
        invariant text ==> forall d :: 0 <= d < cnt ==> !ex[d]
      {
        if Excluded(devices[cnt].group, devices[cnt].subgroup, group, subgroup) {
          if text || cnt >= |masked| {
            assert ex[cnt];
            crashed := true;
            break;
          }
          masked := masked[cnt := Skip];
        }
        cnt := cnt + 1;
      }
      colors := masked;
    }

    /** `get_toggle`. */
    method Toggle() returns (toggled: seq<string>)
      ensures toggled == ToggleOf(GetState())
    {
      var n := |devices|;
      toggled := seq(n, _ => On);
      var i := 0;
      while i < n
        invariant 0 <= i <= n
        invariant toggled == (if forall j :: 0 <= j < i ==> devices[j].state == Off
                              then seq(n, _ => On) else seq(n, _ => Off))
      {
        if devices[i].state != Off {
          toggled := seq(n, _ => Off);
        }
        i := i + 1;
      }
    }

    /** `reinit`: every device's success flag cleared. */
    method Reinit()
      requires Distinct(devices)
      modifies devices
      ensures States() == ReinitAll(old(States()))
      ensures GetState() == old(GetState())
    {
      var i := 0;
      while i < |devices|
        invariant 0 <= i <= |devices|
        invariant forall d :: 0 <= d < |devices| ==>
          devices[d].St() == (if d < i then old(devices[d].St()).(success := false) else old(devices[d].St()))
      {
        forall d | 0 <= d < |devices| && d != i
          ensures devices[d] != devices[i]
        {
          DistinctApart(devices, d, i);
        }
        devices[i].Reinit();
        i := i + 1;
      }
    }

    /** The re-sweep loop after the last device of a pass. */
    method ResweepNeeded(vec: seq<string>) returns (again: bool)
      requires |devices| <= |vec|
      ensures again == NeedsResweep(Kinds(), States(), vec)
    {
      again := false;
      var c := 0;
      while c < |devices|
        invariant 0 <= c <= |devices|
        invariant again <==> exists j :: 0 <= j < c && Unsettled(devices[j].kind, devices[j].state, vec[j])
      {
        if Unsettled(devices[c].kind, devices[c].state, vec[c]) {
          again := true;
        }
        c := c + 1;
      }
    }

    /** One call of `color` on device `i`; only that device changes. */
    method Visit(i: nat, token: string, requested: int, air: Air) returns (reply: Reply)
      requires Distinct(devices) && i < |devices|
      modifies devices[i]
      ensures var st := ColorSpec(devices[i].kind, old(States())[i], token, requested, air);
        States() == old(States())[i := st.after] && reply == st.reply
    {
      forall d | 0 <= d < |devices| && d != i
        ensures devices[d] != devices[i]
      {
        DistinctApart(devices, d, i);
      }
      reply := devices[i].Color(token, requested, air);
    }

    /** Device `i`'s turn in a pass of `_set_lights` over `vec`. */
    method Turn(vec: seq<string>, i: nat, air: nat -> Air, k0: nat, ghost calls: seq<nat>) returns (k: nat, crashed: bool)
      requires Distinct(devices) && i < |devices| && i < |vec|
      modifies devices
      ensures var v := VisitOne(Kinds(), old(States()), vec, priority, air, k0, i, calls);
        States() == v.sts && k == v.k && crashed == v.crashed
    {
      k, crashed := k0, false;
      var token := Convert(devices[i].kind, vec[i]);
      if !devices[i].success {
        var reply := Visit(i, token, priority, air(k));
        k := k + 1;
        crashed := reply == Crash;
      }
    }

    /** One pass of `_set_lights` over `vec`, from device 0 to the last or to an exception. */
    method RunPass(vec: seq<string>, air: nat -> Air, k0: nat, ghost calls: seq<nat>) returns (k: nat, crashed: bool)
      requires Distinct(devices)
      modifies devices
      ensures var p := Pass(Kinds(), old(States()), vec, priority, air, k0, 0, calls);
        States() == p.sts && k == p.k && crashed == p.crashed
    {
      var i := 0;
      k := k0;
      crashed := false;
      ghost var kinds := Kinds();
      ghost var done := calls;
      ghost var target := Pass(kinds, States(), vec, priority, air, k0, 0, calls);
      while i < |devices|
        invariant 0 <= i <= |devices|
        invariant Pass(kinds, States(), vec, priority, air, k, i, done) == target
      {
        if i >= |vec| {
          crashed := true;
          return;
        }
        ghost var v := VisitOne(kinds, States(), vec, priority, air, k, i, done);
        k, crashed := Turn(vec, i, air, k, done);
        done := v.calls;
        if crashed {
          return;
        }
        i := i + 1;
      }
    }

    /**
     * One pass over `vec` and the off-target check after it, as a step of
     * Passes from pass number `tries`: the passes stop after an exception,
     * on a settled vector or after the fifth pass, and otherwise go on from
     * the new states.
     */
    method PassAndCheck(vec: seq<string>, air: nat -> Air, k0: nat, tries: nat, ghost calls: seq<nat>,
                        ghost rest: Sweep)
      returns (k: nat, crashed: bool, stop: bool, ghost after: seq<nat>)
      requires Distinct(devices) && tries < MaxPasses
      requires PassesReach(Kinds(), States(), vec, priority, air, k0, tries, calls, rest)
      modifies devices
      ensures stop ==> States() == rest.sts && k == rest.k && crashed == rest.crashed
      ensures !stop ==> tries + 1 < MaxPasses && PassesReach(Kinds(), States(), vec, priority, air, k, tries + 1, after, rest)
    {
      ghost var p := Pass(Kinds(), States(), vec, priority, air, k0, 0, calls);
      k, crashed := RunPass(vec, air, k0, calls);
      after := p.calls;
      stop := true;
      if !crashed && tries + 1 < MaxPasses {
        var again := ResweepNeeded(vec);
        stop := !again;
      }
    }

    /**
     * The passes of `_set_lights` over one vector `vec`: after the last
     * device, the vector is checked for devices off target and, if any are
     * and fewer than five passes were made, `i` goes back to 0.
     */
    method SweepVector(vec: seq<string>, air: nat -> Air, k0: nat) returns (k: nat, crashed: bool)
      requires Distinct(devices)
      modifies devices
      ensures var w := Sweeps(Kinds(), old(States()), vec, priority, air, k0);
        States() == w.sts && k == w.k && crashed == w.crashed
    {
      k := k0;
      crashed := false;
      if |devices| == 0 {
        return;
      }
      var tries := 0;
      ghost var calls: seq<nat> := [];
      ghost var target := Passes(Kinds(), States(), vec, priority, air, k0, 0, []);
      while true
        invariant tries < MaxPasses && priority == old(priority)
        invariant PassesReach(Kinds(), States(), vec, priority, air, k, tries, calls, target)
        decreases MaxPasses - tries
      {
        var stop;
        k, crashed, stop, calls := PassAndCheck(vec, air, k, tries, calls, target);
        if stop {
          return;
        }
        tries := tries + 1;
      }
    }

    /** One vector of the queue: success flags cleared unless first, then its passes. */
    method Serve(vec: seq<string>, first: bool, air: nat -> Air, k0: nat) returns (k: nat, crashed: bool)
      requires Distinct(devices)
      modifies devices
      ensures var start := if first then old(States()) else ReinitAll(old(States()));
        var w := Sweeps(Kinds(), start, vec, priority, air, k0);
        States() == w.sts && k == w.k && crashed == w.crashed
    {
      if !first {
        Reinit();
      }
      k, crashed := SweepVector(vec, air, k0);
    }

    /**
     * The queue loop of `_set_lights` over the vectors `q`: first in, first
     * out, success flags cleared before every vector but the first; an
     * exception ends the loop with the rest still queued.
     */
    method DrainQueue(q: seq<seq<string>>, air: nat -> Air, k0: nat) returns (rest: seq<seq<string>>, k: nat)
      requires Distinct(devices)
      modifies devices
      ensures priority == old(priority)
      ensures var d := Drain(Kinds(), old(States()), q, priority, air, k0, true, []);
        States() == d.sts && rest == d.rest && k == d.k
    {
      rest := q;
      k := k0;
      var firstran := false;
      ghost var served: seq<seq<string>> := [];
      ghost var target := Drain(Kinds(), States(), q, priority, air, k, true, []);
      while rest != []
        invariant Drain(Kinds(), States(), rest, priority, air, k, !firstran, served) == target
      {
        var vec := rest[0];
        rest := rest[1..];
        var crashed;
        k, crashed := Serve(vec, !firstran, air, k);
        firstran := true;
        served := served + [vec];
        if crashed {
          return;
        }
      }
    }

    /**
     * `_set_lights`, unthreaded: drain the queue; all success flags are
     * cleared and the lock released at the end. Without threads nothing
     * observes the lock, which the source sets to 1 for each vector, before
     * it is released.
     */
    method SetLights(air: nat -> Air, k0: nat) returns (k: nat)
      requires Valid()
      modifies this, devices
      ensures Valid() && !locked && lockcount == 0
      ensures var d := Drain(Kinds(), old(States()), old(queue), old(priority), air, k0, true, []);
        (States(), queue, k) == (ReinitAll(d.sts), d.rest, d.k)
      ensures colors == old(colors) && text == old(text) && priority == old(priority)
      ensures skiptime == old(skiptime) && starttime == old(starttime)
    {
      ghost var d := Drain(Kinds(), States(), queue, priority, air, k0, true, []);
      var rest;
      rest, k := DrainQueue(queue, air, k0);
      Reinit();
      // The source clears the refusal count first; the drain does not read it.
      Release(rest);
    }

    /** The end of `_set_lights`: the unserved vectors stay queued, the lock is released. */
    method Release(rest: seq<seq<string>>)
      requires Distinct(devices)
      modifies this
      ensures Valid() && !locked && lockcount == 0 && queue == rest
      ensures colors == old(colors) && text == old(text) && priority == old(priority)
      ensures skiptime == old(skiptime) && starttime == old(starttime)
    {
      queue, lockcount, locked := rest, 0, false;
    }

    /**
     * `run`: a request that passes the time gate is queued; the queue is
     * drained when unlocked or after two refusals, otherwise the refusal is
     * counted.
     */
    method Run(now: TimeOfDay, air: nat -> Air, k0: nat) returns (k: nat)
      requires Valid()
      modifies this, devices
      ensures Valid()
      ensures Effect(Snapshot(), k, false) == Ran(Kinds(), old(Snapshot()), now, air, k0)
    {
      k := k0;
      var ok := CheckTime(now);
      if ok {
        queue := queue + [colors];
        if !locked || lockcount == 2 {
          k := SetLights(air, k0);
        } else {
          lockcount := lockcount + 1;
        }
      }
    }

    /**
     * One `color(token, 3)` call of the streaming loop on device `d`, seen
     * as attempt number `cnt` of Attempts towards `rest`: the attempts stop
     * on any answer but False and after the fourth call, and otherwise the
     * remaining ones run from the new state. No other device changes.
     */
    method StreamOnce(d: nat, token: string, air: nat -> Air, k0: nat, cnt: nat,
                      ghost base: seq<BulbState>, ghost rest: Attempt)
      returns (k: nat, crashed: bool, stop: bool)
      requires Distinct(devices) && d < |devices| && cnt < MaxAttempts
      requires d < |base| && States() == base[d := States()[d]]
      requires Attempts(devices[d].kind, States()[d], token, air, k0, cnt) == rest
      modifies devices[d]
      ensures States() == base[d := States()[d]]
      ensures stop ==> States()[d] == rest.s && k == rest.k && crashed == rest.crashed
      ensures !stop ==> cnt + 1 < MaxAttempts && Attempts(devices[d].kind, States()[d], token, air, k, cnt + 1) == rest
    {
      ghost var mid := States();
      var reply := Visit(d, token, StreamPriority, air(k0));
      k := k0 + 1;
      UpdateTwice(base, d, mid[d], States()[d]);
      stop := reply != Retry || cnt + 1 == MaxAttempts;
      crashed := reply == Crash;
    }

    /** `set_light_stream`'s retry loop on device `d`, at priority 3. */
    method StreamTo(d: nat, token: string, air: nat -> Air, k0: nat) returns (k: nat, crashed: bool)
      requires Distinct(devices) && d < |devices|
      modifies devices[d]
      ensures var a := Attempts(devices[d].kind, old(States())[d], token, air, k0, 0);
        States() == old(States())[d := a.s] && k == a.k && crashed == a.crashed
    {
      var cnt := 0;
      k := k0;
      ghost var base := States();
      ghost var kind := devices[d].kind;
      ghost var target := Attempts(kind, States()[d], token, air, k0, 0);
      var stop := false;
      crashed := false;
      while !stop
        invariant cnt < MaxAttempts
        invariant States() == base[d := States()[d]]
        invariant !stop ==> Attempts(kind, States()[d], token, air, k, cnt) == target
        invariant stop ==> States()[d] == target.s && k == target.k && crashed == target.crashed
        decreases !stop, MaxAttempts - cnt
      {
        k, crashed, stop := StreamOnce(d, token, air, k, cnt, base, target);
        if !stop {
          cnt := cnt + 1;
        }
      }
    }

    /** The group branch of `set_light_stream`, from device `j` on. */
    method StreamToGroup(name: string, color: string, air: nat -> Air, k0: nat) returns (k: nat, crashed: bool)
      requires Distinct(devices)
      modifies devices
      ensures var r := StreamGroup(Kinds(), Groups(), old(States()), name, color, air, k0, 0);
        States() == r.sts && k == r.k && crashed == r.crashed
    {
      var j := 0;
      k := k0;
      crashed := false;
      ghost var target := StreamGroup(Kinds(), Groups(), States(), name, color, air, k0, 0);
      while j < |devices| && !crashed
        invariant 0 <= j <= |devices|
        invariant !crashed ==> StreamGroup(Kinds(), Groups(), States(), name, color, air, k, j) == target
        invariant crashed ==> target == Streamed(States(), k, true)
      {
        if devices[j].group == name {
          var token := Convert(devices[j].kind, color);
          k, crashed := StreamTo(j, token, air, k);
        }
        j := j + 1;
      }
    }

    /**
     * `set_light_stream` with the single-device branch as evidently
     * intended: the device is `devices[devid]`. The final `reinit` is
     * skipped when an exception escapes.
     */
    method SetLightStream(target: Target, color: string, air: nat -> Air, k0: nat) returns (k: nat, crashed: bool)
      requires Distinct(devices)
      modifies devices
      ensures var r := Stream(Kinds(), Groups(), old(States()), target, color, air, k0);
        k == r.k && crashed == r.crashed && States() == (if r.crashed then r.sts else ReinitAll(r.sts))
    {
      match target {
        case Group(name) =>
          k, crashed := StreamToGroup(name, color, air, k0);
        case Device(index) =>
          var d := PyIndex(|devices|, index);
          if d.None? {
            return k0, true;
          }
          var token := Convert(devices[d.value].kind, color);
          k, crashed := StreamTo(d.value, token, air, k0);
      }
      if !crashed {
        Reinit();
      }
    }

    /**
     * `set_light_stream` as written: the single-device branch reads the
     * loop variable `device` of the other branch, which is unbound there,
     * so it raises before any device is touched.
     */
    method SetLightStreamAsWritten(target: Target, color: string, air: nat -> Air, k0: nat)
      returns (k: nat, crashed: bool)
      requires Distinct(devices)
      modifies devices
      ensures var r := StreamAsWritten(Kinds(), Groups(), old(States()), target, color, air, k0);
        k == r.k && crashed == r.crashed && States() == (if r.crashed then r.sts else ReinitAll(r.sts))
    {
      match target {
        case Group(name) =>
          k, crashed := StreamToGroup(name, color, air, k0);
        case Device(_) =>
          return k0, true;
      }
      if !crashed {
        Reinit();
      }
    }
  }
}

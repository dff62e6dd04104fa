/**
 * The light server's request side: `_sanitize`, the screening and the
 * dispatch of `_validate_and_execute_req`, and the `listen_client` loop that
 * reads the framed payloads of one connection.
 */
module Server {

  import opened Wire
  import opened Json
  import opened Bulbs
  import opened Sweeping
  import opened Manager

  // ------------------------------------------------------------- text

  /** `s.replace("'", "")`. */
  function Unquote(s: string): (r: string)
    ensures '\'' !in r && |r| <= |s|
    ensures forall c :: c in r ==> c in s
  {
    if s == [] then []
    else if s[0] == '\'' then Unquote(s[1..])
    else [s[0]] + Unquote(s[1..])
  }

  /** Unquoting works piece by piece: it commutes with concatenation. */
  lemma {:induction false} UnquoteAppend(a: string, b: string)
    ensures Unquote(a + b) == Unquote(a) + Unquote(b)
  {
    if a != [] {
      assert (a + b)[0] == a[0] && (a + b)[1..] == a[1..] + b;
      UnquoteAppend(a[1..], b);
    } else {
      assert a + b == b;
    }
  }

  /** A quote is dropped and any other character kept. */
  lemma UnquoteChar(c: char)
    ensures Unquote([c]) == if c == '\'' then [] else [c]
  {
    assert [c][1..] == [];
  }

  /** A string without quotes is left alone. */
  lemma {:induction false} UnquotePlain(s: string)
    requires '\'' !in s
    ensures Unquote(s) == s
  {
    if s != [] {
      UnquotePlain(s[1..]);
    }
  }

  /** `s.split(sep)`: the pieces between the separators, in order; never empty. */
  function Split(s: string, sep: char): (r: seq<string>)
    ensures |r| >= 1
    ensures forall i :: 0 <= i < |r| ==> sep !in r[i]
  {
    if s == [] then [[]]
    else
      var t := Split(s[1..], sep);
      if s[0] == sep then [[]] + t else [[s[0]] + t[0]] + t[1..]
  }

  /** `sep.join(parts)`. */
  function Join(parts: seq<string>, sep: char): string
  {
    if parts == [] then []
    else if |parts| == 1 then parts[0]
    else parts[0] + [sep] + Join(parts[1..], sep)
  }

  /** Joining the pieces with the separator gives the string back. */
  lemma {:induction false} JoinSplit(s: string, sep: char)
    ensures Join(Split(s, sep), sep) == s
  {
    if s != [] {
      var t := Split(s[1..], sep);
      JoinSplit(s[1..], sep);
      if s[0] == sep {
        assert Split(s, sep) == [[]] + t;
      } else if |t| == 1 {
        assert Split(s, sep) == [[s[0]] + t[0]];
      } else {
        var r := Split(s, sep);
        assert r == [[s[0]] + t[0]] + t[1..];
        assert r[1..] == t[1..];
        assert Join(t, sep) == t[0] + [sep] + Join(t[1..], sep);
      }
    }
  }

  /** Splitting what was joined gives the pieces back, when no piece holds the separator. */
  lemma {:induction false} SplitJoin(parts: seq<string>, sep: char)
    requires |parts| >= 1 && forall i :: 0 <= i < |parts| ==> sep !in parts[i]
    ensures Split(Join(parts, sep), sep) == parts
  {
    if |parts| == 1 {
      SplitPlain(parts[0], sep);
    } else {
      SplitJoin(parts[1..], sep);
      SplitAfter(parts[0], sep, Join(parts[1..], sep));
      assert [parts[0]] + parts[1..] == parts;
    }
  }

  lemma {:induction false} SplitPlain(a: string, sep: char)
    requires sep !in a
    ensures Split(a, sep) == [a]
  {
    if a != [] {
      SplitPlain(a[1..], sep);
      assert [a[0]] + a[1..] == a;
    }
  }

  lemma {:induction false} SplitAfter(a: string, sep: char, rest: string)
    requires sep !in a
    ensures Split(a + [sep] + rest, sep) == [a] + Split(rest, sep)
  {
    var s := a + [sep] + rest;
    if a == [] {
      assert s[1..] == rest;
    } else {
      assert s[1..] == a[1..] + [sep] + rest;
      SplitAfter(a[1..], sep, rest);
      assert [a[0]] + a[1..] == a;
    }
  }

  // --------------------------------------------------------- sanitize

  /**
   * A request after `_sanitize`: the value of each key the server reads.
   * Other keys of the object are carried along by the source and never read.
   */
  datatype Args = Args(
    hexvalues: JValue, off: JValue, tvrestart: JValue, on: JValue, tvon: JValue,
    toggle: JValue, playbulb: JValue, milight: JValue, server: JValue, journal: JValue,
    notime: JValue, tvoff: JValue, priority: JValue, group: JValue, subgroup: JValue)

  /** The value at `key`, or what `_sanitize` fills in when it is missing. */
  function Get(args: Object, key: string, default: JValue): (v: JValue)
    ensures key in args ==> v == args[key]
    ensures key !in args ==> v == default
  {
    if key in args then args[key] else default
  }

  /** A string becomes the list of its comma-separated pieces, quotes removed. */
  function SplitValue(v: JValue): (r: JValue)
    ensures !r.JStr?
    ensures !v.JStr? ==> r == v
    ensures v.JStr? ==> r.JList? && Join(r.items, ',') == Unquote(v.s)
    ensures v.JStr? ==> |r.items| >= 1 && forall i :: 0 <= i < |r.items| ==> ',' !in r.items[i]
  {
    if v.JStr? then
      JoinSplit(Unquote(v.s), ',');
      JList(Split(Unquote(v.s), ','))
    else v
  }

  /**
   * `_sanitize`: missing flags are false, missing hexvalues the empty list,
   * missing devices, groups and subgroups None; a missing or null priority
   * is 1; a string playbulb or milight value becomes its list of pieces.
   */
  function Sanitize(args: Object): (r: Args)
    ensures r.priority != JNull
    ensures !r.playbulb.JStr? && !r.milight.JStr?
  {
    var priority := Get(args, "priority", JNull);
    Args(
      hexvalues := Get(args, "hexvalues", JList([])),
      off := Get(args, "off", JBool(false)),
      tvrestart := Get(args, "tvrestart", JBool(false)),
      on := Get(args, "on", JBool(false)),
      tvon := Get(args, "tvon", JBool(false)),
      toggle := Get(args, "toggle", JBool(false)),
      playbulb := SplitValue(Get(args, "playbulb", JNull)),
      milight := SplitValue(Get(args, "milight", JNull)),
      server := Get(args, "server", JBool(false)),
      journal := Get(args, "journal", JBool(false)),
      notime := Get(args, "notime", JBool(false)),
      tvoff := Get(args, "tvoff", JBool(false)),
      priority := if priority == JNull then JInt(1) else priority,
      group := Get(args, "group", JNull),
      subgroup := Get(args, "subgroup", JNull))
  }

  /** The priority rule: 1 unless the request names a priority other than null. */
  lemma SanitizePriority(args: Object)
    ensures "priority" in args && args["priority"] != JNull ==> Sanitize(args).priority == args["priority"]
    ensures "priority" !in args || args["priority"] == JNull ==> Sanitize(args).priority == JInt(1)
  {
  }

  /** A comma string in the request reaches the devices as its pieces, and nothing is lost. */
  lemma SanitizeSplits(args: Object)
    requires "playbulb" in args && args["playbulb"].JStr?
    ensures Sanitize(args).playbulb.JList?
    ensures Join(Sanitize(args).playbulb.items, ',') == Unquote(args["playbulb"].s)
    ensures forall i :: 0 <= i < |Sanitize(args).playbulb.items| ==> ',' !in Sanitize(args).playbulb.items[i]
  {
    JoinSplit(Unquote(args["playbulb"].s), ',');
  }

  /** A list of pieces sent as one comma string arrives as that list. */
  lemma SanitizeJoined(args: Object, pieces: seq<string>)
    requires |pieces| >= 1 && forall i :: 0 <= i < |pieces| ==> ',' !in pieces[i] && '\'' !in pieces[i]
    requires "milight" in args && args["milight"] == JStr(Join(pieces, ','))
    ensures Sanitize(args).milight == JList(pieces)
  {
    JoinHasNo(pieces, ',', '\'');
    UnquotePlain(Join(pieces, ','));
    SplitJoin(pieces, ',');
  }

  lemma {:induction false} JoinHasNo(parts: seq<string>, sep: char, c: char)
    requires c != sep && forall i :: 0 <= i < |parts| ==> c !in parts[i]
    ensures c !in Join(parts, sep)
  {
    if |parts| > 1 {
      JoinHasNo(parts[1..], sep, c);
    }
  }

  // ------------------------------------------------------- validation

  /** How `_validate_and_execute_req` leaves a request before `run`. */
  datatype Verdict =
    | Refused      // one of the three rejection rules
    | Raised       // `len(hexvalues)` raised TypeError
    | TvOn         // the television was switched on; nothing else happens
    | TvRestart    // the media box was restarted; nothing else happens
    | Unsupported  // a priority the model cannot store (a string or a list)
    | Accepted     // the lights were set

  /** The flags whose presence excuses a hexvalues list of the wrong length. */
  predicate Modified(args: Args)
  {
    || Truthy(args.notime) || Truthy(args.off) || Truthy(args.on)
    || Truthy(args.playbulb) || Truthy(args.milight) || Truthy(args.toggle)
    || Truthy(args.tvon) || Truthy(args.tvoff) || Truthy(args.tvrestart)
  }

  /** The integer Python compares a stored priority as: `True` is 1. */
  function PriorityOf(v: JValue): (r: Option<int>)
    ensures r.Some? <==> v.JInt? || v.JBool?
  {
    match v
    case JInt(i) => Some(i)
    case JBool(b) => Some(if b then 1 else 0)
    case _ => None
  }

  /** The rejection rules and early returns, in the order the source tests them. */
  function Screen(args: Args, n: nat): (v: Verdict)
  {
    if Truthy(args.hexvalues) && (Truthy(args.playbulb) || Truthy(args.milight)) then Refused
    else if Truthy(args.tvon) && Truthy(args.tvoff) then Refused
    else if AsTokens(args.hexvalues).None? then Raised
    else if |AsTokens(args.hexvalues).value| != n && !Modified(args) then Refused
    else if Truthy(args.tvon) then TvOn
    else if Truthy(args.tvrestart) then TvRestart
    else if Truthy(args.priority) && PriorityOf(args.priority).None? then Unsupported
    else Accepted
  }

  /** The three rejection rules, each on its own. */
  predicate MixedColours(args: Args)
  {
    Truthy(args.hexvalues) && (Truthy(args.playbulb) || Truthy(args.milight))
  }

  predicate TvBothWays(args: Args)
  {
    Truthy(args.tvon) && Truthy(args.tvoff)
  }

  predicate WrongLength(args: Args, n: nat)
  {
    match AsTokens(args.hexvalues)
    case Some(hex) => |hex| != n && !Modified(args)
    case None => false
  }

  /**
   * A request is refused exactly when one of the rules holds and
   * `len(hexvalues)` does not raise first.
   */
  lemma RefusedExactly(args: Args, n: nat)
    ensures Screen(args, n) == Refused <==>
      MixedColours(args) || TvBothWays(args) || WrongLength(args, n)
    ensures Screen(args, n) == Raised <==>
      !MixedColours(args) && !TvBothWays(args) && AsTokens(args.hexvalues).None?
  {
  }

  /** Only an accepted request gets past the screening to `run`. */
  lemma AcceptedMeans(args: Args, n: nat)
    requires Screen(args, n) == Accepted
    ensures !MixedColours(args) && !TvBothWays(args) && !WrongLength(args, n)
    ensures !Truthy(args.tvon) && !Truthy(args.tvrestart)
    ensures AsTokens(args.hexvalues).Some? && (Truthy(args.priority) ==> PriorityOf(args.priority).Some?)
  {
  }

  /** An empty request is refused on length unless there are no devices. */
  lemma EmptyRequest(n: nat)
    ensures Screen(Sanitize(map[]), n) == (if n == 0 then Accepted else Refused)
  {
  }

  /** A bare "on" request is accepted whatever the device count. */
  lemma OnRequest(n: nat)
    ensures Screen(Sanitize(map["on" := JBool(true)]), n) == Accepted
  {
  }

  // --------------------------------------------------------- dispatch

  /** The priority the manager holds after the request: a truthy value replaces it. */
  function RequestPriority(args: Args, current: int): int
  {
    if Truthy(args.priority) && PriorityOf(args.priority).Some? then PriorityOf(args.priority).value else current
  }

  /** A request that skips the next time check. */
  predicate SkipsTime(args: Args)
  {
    Truthy(args.notime) || Truthy(args.off)
  }

  /** The typed requests, playbulb first; either may raise. */
  function Typed(kinds: seq<Kind>, colors: seq<string>, text: bool, args: Args): (p: Prep)
    ensures p.text == text
  {
    var pb := if args.playbulb != JNull then TypedColors(kinds, colors, text, AsTokens(args.playbulb), Playbulbs)
              else Prep(colors, text, false);
    if pb.crashed || args.milight == JNull then pb
    else TypedColors(kinds, pb.colors, pb.text, AsTokens(args.milight), Milights)
  }

  /** Whether off, on or toggle asks for a whole new list. */
  predicate AnyFlag(args: Args)
  {
    Truthy(args.off) || Truthy(args.on) || Truthy(args.toggle)
  }

  /** Off, on and toggle, each overriding the one before. */
  function Flagged(n: nat, states: seq<string>, colors: seq<string>, args: Args): (c: seq<string>)
  {
    var c := if Truthy(args.off) then seq(n, _ => Off) else colors;
    var c := if Truthy(args.on) then seq(n, _ => On) else c;
    if Truthy(args.toggle) then ToggleOf(states) else c
  }

  /**
   * The vector `_validate_and_execute_req` builds before `get_group`. A
   * truthy hexvalues wins outright and is stored as it is, a string
   * included; otherwise the typed requests are applied, then the flags.
   */
  function Build(kinds: seq<Kind>, states: seq<string>, colors: seq<string>, text: bool, args: Args): (p: Prep)
  {
    if Truthy(args.hexvalues) then
      match AsTokens(args.hexvalues)
      case Some(hex) => Prep(hex, args.hexvalues.JStr?, false)
      case None => Prep(colors, text, true)
    else
      var t := Typed(kinds, colors, text, args);
      if t.crashed then t else Prep(Flagged(|kinds|, states, t.colors, args), t.text && !AnyFlag(args), false)
  }

  /** The vector `run` receives, after the group mask; `get_group` may raise. */
  function Prepared(kinds: seq<Kind>, states: seq<string>, colors: seq<string>, text: bool, args: Args,
                    ex: seq<bool>): (p: Prep)
  {
    var b := Build(kinds, states, colors, text, args);
    if b.crashed || args.group == JNull then b
    else GroupMask(b.colors, b.text, ex)
  }

  /** Hexvalues take precedence over every other colour source. */
  lemma HexWins(kinds: seq<Kind>, states: seq<string>, colors: seq<string>, text: bool, args: Args)
    requires Truthy(args.hexvalues) && AsTokens(args.hexvalues).Some?
    ensures Build(kinds, states, colors, text, args) == Prep(AsTokens(args.hexvalues).value, args.hexvalues.JStr?, false)
  {
  }

  /** Without hexvalues, a toggle overrides on, off and the typed values, when nothing raised. */
  lemma ToggleWins(kinds: seq<Kind>, states: seq<string>, colors: seq<string>, text: bool, args: Args)
    requires !Truthy(args.hexvalues) && Truthy(args.toggle)
    ensures var b := Build(kinds, states, colors, text, args);
      !b.crashed ==> b.colors == ToggleOf(states) && !b.text
  {
  }

  /** On overrides off: a request with both turns every device on. */
  lemma OnOverridesOff(kinds: seq<Kind>, states: seq<string>, colors: seq<string>, text: bool, args: Args)
    requires !Truthy(args.hexvalues) && Truthy(args.on) && !Truthy(args.toggle)
    ensures var b := Build(kinds, states, colors, text, args);
      !b.crashed ==> |b.colors| == |kinds| && (forall i :: 0 <= i < |kinds| ==> b.colors[i] == On) && !b.text
  {
  }

  /** Without hexvalues, the vector keeps one entry per device. */
  lemma BuildKeepsLength(kinds: seq<Kind>, states: seq<string>, colors: seq<string>, text: bool, args: Args)
    requires |colors| == |kinds| == |states| && !Truthy(args.hexvalues)
    ensures |Build(kinds, states, colors, text, args).colors| == |kinds|
  {
    var pb := if args.playbulb != JNull then TypedColors(kinds, colors, text, AsTokens(args.playbulb), Playbulbs)
              else Prep(colors, text, false);
    if args.playbulb != JNull && !pb.crashed && !text && TypeIndex(kinds, Playbulbs).value.0 == |AsTokens(args.playbulb).value| {
      TypedColorsWindow(kinds, colors, AsTokens(args.playbulb).value, Playbulbs);
    }
    assert |pb.colors| == |kinds|;
    if !pb.crashed && args.milight != JNull {
      var ml := TypedColors(kinds, pb.colors, pb.text, AsTokens(args.milight), Milights);
      if !ml.crashed && !pb.text && TypeIndex(kinds, Milights).value.0 == |AsTokens(args.milight).value| {
        TypedColorsWindow(kinds, pb.colors, AsTokens(args.milight).value, Milights);
      }
    }
  }

  /**
   * A string hexvalues is kept as a `str`: the group mask then raises at the
   * first device outside the group, and the vector reaches `run` only when
   * no device is masked out.
   */
  lemma TextRefusesMask(kinds: seq<Kind>, states: seq<string>, colors: seq<string>, text: bool, args: Args,
                        ex: seq<bool>)
    requires Truthy(args.hexvalues) && args.hexvalues.JStr? && args.group != JNull
    ensures var p := Prepared(kinds, states, colors, text, args, ex);
      && p.text && p.colors == AsTokens(args.hexvalues).value
      && (p.crashed <==> exists d :: 0 <= d < |ex| && ex[d])
  {
  }

  /**
   * A `str` vector left by an earlier request stays one until a flag
   * replaces it, and a typed request of the right count then raises on its
   * slice assignment.
   */
  lemma TextRefusesTyped(kinds: seq<Kind>, states: seq<string>, colors: seq<string>, args: Args)
    requires !Truthy(args.hexvalues) && args.playbulb != JNull && AsTokens(args.playbulb).Some?
    requires TypeIndex(kinds, Playbulbs).Some? && TypeIndex(kinds, Playbulbs).value.0 == |AsTokens(args.playbulb).value|
    ensures Build(kinds, states, colors, true, args) == Prep(colors, true, true)
  {
  }

  /** The typed requests of `_validate_and_execute_req`, playbulb first. */
  method ApplyTyped(lm: LightManager, args: Args) returns (crashed: bool)
    modifies lm
    ensures var t := Typed(lm.Kinds(), old(lm.colors), old(lm.text), args);
      lm.colors == t.colors && lm.text == t.text && crashed == t.crashed
    ensures lm.queue == old(lm.queue) && lm.locked == old(lm.locked) && lm.lockcount == old(lm.lockcount)
    ensures lm.skiptime == old(lm.skiptime) && lm.starttime == old(lm.starttime) && lm.priority == old(lm.priority)
  {
    crashed := false;
    if args.playbulb != JNull {
      crashed := lm.SetTypedColors(AsTokens(args.playbulb), Playbulbs);
      if crashed {
        return;
      }
    }
    if args.milight != JNull {
      crashed := lm.SetTypedColors(AsTokens(args.milight), Milights);
    }
  }

  /** Off, on and toggle, in that order. */
  method ApplyFlags(lm: LightManager, args: Args)
    modifies lm
    ensures lm.colors == Flagged(|lm.devices|, old(lm.GetState()), old(lm.colors), args)
    ensures lm.text == (old(lm.text) && !AnyFlag(args))
    ensures lm.queue == old(lm.queue) && lm.locked == old(lm.locked) && lm.lockcount == old(lm.lockcount)
    ensures lm.skiptime == old(lm.skiptime) && lm.starttime == old(lm.starttime) && lm.priority == old(lm.priority)
  {
    if Truthy(args.off) {
      lm.SetColors(seq(|lm.devices|, _ => Off), false);
    }
    if Truthy(args.on) {
      lm.SetColors(seq(|lm.devices|, _ => On), false);
    }
    if Truthy(args.toggle) {
      var toggled := lm.Toggle();
      lm.SetColors(toggled, false);
    }
  }

  /** The colour vector, from hexvalues or from the other sources. */
  method BuildColors(lm: LightManager, args: Args) returns (crashed: bool)
    modifies lm
    ensures var b := Build(lm.Kinds(), old(lm.GetState()), old(lm.colors), old(lm.text), args);
      lm.colors == b.colors && lm.text == b.text && crashed == b.crashed
    ensures lm.queue == old(lm.queue) && lm.locked == old(lm.locked) && lm.lockcount == old(lm.lockcount)
    ensures lm.skiptime == old(lm.skiptime) && lm.starttime == old(lm.starttime) && lm.priority == old(lm.priority)
  {
    var hex := AsTokens(args.hexvalues);
    if Truthy(args.hexvalues) {
      if hex.None? {
        return true;
      }
      lm.SetColors(hex.value, args.hexvalues.JStr?);
      return false;
    }
    crashed := ApplyTyped(lm, args);
    if !crashed {
      ApplyFlags(lm, args);
    }
  }

  /**
   * `_validate_and_execute_req` short of `run`: the priority, the vector, the
   * skipped time check and the group mask, stopping where an exception escapes.
   */
  method Prepare(lm: LightManager, args: Args) returns (crashed: bool)
    requires lm.Valid() && Screen(args, |lm.devices|) == Accepted
    modifies lm
    ensures lm.Valid()
    ensures var b := Build(lm.Kinds(), old(lm.GetState()), old(lm.colors), old(lm.text), args);
      var p := Prepared(lm.Kinds(), old(lm.GetState()), old(lm.colors), old(lm.text), args,
                        Exclusions(lm.Groups(), lm.Subgroups(), args.group, args.subgroup));
      && lm.colors == p.colors && lm.text == p.text && crashed == p.crashed
      && lm.skiptime == (old(lm.skiptime) || (!b.crashed && SkipsTime(args)))
    ensures lm.priority == RequestPriority(args, old(lm.priority))
    ensures lm.queue == old(lm.queue) && lm.locked == old(lm.locked) && lm.lockcount == old(lm.lockcount)
    ensures lm.starttime == old(lm.starttime)
  {
    ghost var states := lm.GetState();
    crashed := BuildColors(lm, args);
    ghost var b := Build(lm.Kinds(), states, old(lm.colors), old(lm.text), args);
    assert lm.colors == b.colors;
    if Truthy(args.priority) {
      lm.priority := PriorityOf(args.priority).value;
    }
    if !crashed {
      if SkipsTime(args) {
        lm.SkipTime(false);
      }
      if args.group != JNull {
        crashed := lm.GetGroup(args.group, args.subgroup);
      }
    }
  }

  /**
   * `_validate_and_execute_req` on a manager state: a screened-out request
   * changes nothing (a `len` that raises is reported as an exception); an
   * accepted one adopts its priority and gets its vector, skipping the next
   * time check for notime or off; unless preparing it raised, `run` follows.
   */
  function Validated(c: Config, s: Snap, args: Args, now: TimeOfDay, air: nat -> Air, k: nat): (e: Effect)
    requires c.Valid() && |s.states| == |c.kinds|
    ensures |e.s.states| == |s.states|
    ensures Screen(args, |c.kinds|) != Accepted ==> e == Effect(s, k, Screen(args, |c.kinds|) == Raised)
    ensures 0 <= s.lockcount <= 2 ==> 0 <= e.s.lockcount <= 2
  {
    var v := Screen(args, |c.kinds|);
    if v != Accepted then Effect(s, k, v == Raised)
    else
      var r := Readied(c, s, args);
      if r.1 then Effect(r.0, k, true) else Ran(c.kinds, r.0, now, air, k)
  }

  /**
   * The state an accepted request leaves before `run`, and whether
   * preparing it raised: its priority adopted, its vector built and masked,
   * and the next time check skipped for notime or off.
   */
  function Readied(c: Config, s: Snap, args: Args): (r: (Snap, bool))
    requires c.Valid() && |s.states| == |c.kinds|
    ensures r.0.states == s.states && r.0.queue == s.queue && r.0.starttime == s.starttime
    ensures r.0.locked == s.locked && r.0.lockcount == s.lockcount
    ensures r.0.priority == RequestPriority(args, s.priority)
  {
    var states := ColoursOf(s.states);
    var b := Build(c.kinds, states, s.colors, s.text, args);
    var p := Prepared(c.kinds, states, s.colors, s.text, args,
                      Exclusions(c.groups, c.subgroups, args.group, args.subgroup));
    (s.(colors := p.colors, text := p.text, priority := RequestPriority(args, s.priority),
        skiptime := s.skiptime || (!b.crashed && SkipsTime(args))),
     p.crashed)
  }

  /** A state that differs from `s` as `Prepare` promises is the one `Readied` names. */
  lemma ReadiedState(c: Config, s: Snap, t: Snap, crashed: bool, args: Args)
    requires c.Valid() && |s.states| == |c.kinds|
    requires t.states == s.states && t.queue == s.queue && t.starttime == s.starttime
    requires t.locked == s.locked && t.lockcount == s.lockcount && t.priority == RequestPriority(args, s.priority)
    requires var states := ColoursOf(s.states);
      var b := Build(c.kinds, states, s.colors, s.text, args);
      var p := Prepared(c.kinds, states, s.colors, s.text, args,
                        Exclusions(c.groups, c.subgroups, args.group, args.subgroup));
      && t.colors == p.colors && t.text == p.text && crashed == p.crashed
      && t.skiptime == (s.skiptime || (!b.crashed && SkipsTime(args)))
    ensures (t, crashed) == Readied(c, s, args)
  {
  }

  /**
   * `_validate_and_execute_req`: the screening verdict, and the new state of
   * the manager and its devices is `Validated` of the old one.
   * The television commands are shell calls and are not part of this model.
   */
  method ValidateAndExecute(lm: LightManager, args: Args, now: TimeOfDay, air: nat -> Air, k0: nat)
    returns (verdict: Verdict, k: nat, crashed: bool)
    requires lm.Valid()
    modifies lm, lm.devices
    ensures lm.Valid()
    ensures verdict == Screen(args, |lm.devices|)
    ensures Effect(lm.Snapshot(), k, crashed) == Validated(lm.Configuration(), old(lm.Snapshot()), args, now, air, k0)
  {
    k, crashed := k0, false;
    if Truthy(args.hexvalues) && (Truthy(args.playbulb) || Truthy(args.milight)) {
      return Refused, k, crashed;
    }
    if Truthy(args.tvon) && Truthy(args.tvoff) {
      return Refused, k, crashed;
    }
    var hex := AsTokens(args.hexvalues);
    if hex.None? {
      return Raised, k, true;
    }
    if |hex.value| != |lm.devices| && !Modified(args) {
      return Refused, k, crashed;
    }
    if Truthy(args.tvon) {
      return TvOn, k, crashed;
    }
    if Truthy(args.tvrestart) {
      return TvRestart, k, crashed;
    }
    if Truthy(args.priority) && PriorityOf(args.priority).None? {
      return Unsupported, k, crashed;
    }
    verdict := Accepted;
    ghost var s0 := lm.Snapshot();
    crashed := Prepare(lm, args);
    ReadiedState(lm.Configuration(), s0, lm.Snapshot(), crashed, args);
    if !crashed {
      k := lm.Run(now, air, k0);
    }
  }

  // ------------------------------------------------------- connection

  /** The target a streaming connection names: a device index or a group name. */
  datatype StreamId = DevId(n: int) | GroupName(g: string)

  /** The loop's flags: `streamingdev`, `streaminggrp` and `streaming_id`. */
  datatype Mode = Mode(dev: bool, grp: bool, id: Option<StreamId>)

  const Fresh: Mode := Mode(false, false, None)

  /** What the loop asks of the manager. */
  datatype Command =
    | Report                                     // `get_state`, sent back to the client
    | StreamColor(target: Target, color: string) // `set_light_stream`
    | StreamNowhere                              // a group stream whose id is an integer: no device matches
    | Request(req: Object)                       // `_sanitize`, then `_validate_and_execute_req`

  /** Why the loop ends; each way runs the `finally` block. */
  datatype End =
    | Reported     // after "getstate"
    | StreamEnded  // "nostream"
    | BadJson      // the payload is not a JSON object
    | Requested    // after one request
    | BadId        // `int()` refused the device id
    | BadTarget    // a group name used as a device index
    | Closed       // the stream ended or a header could not be read

  datatype Session = Session(cmds: seq<Command>, end: End)

  /** The payloads the loop tests for before anything else. */
  predicate Control(p: string)
  {
    p == "getstate" || p == "stream" || p == "streamgroup" || p == "nostream"
  }

  /** A device id is only ever stored in device streaming mode. */
  predicate Coherent(m: Mode)
  {
    m.id.Some? && m.id.value.DevId? ==> m.dev
  }

  /** What one payload does: the loop goes on with new flags, or breaks; either may issue a command. */
  datatype Outcome = Next(mode: Mode, cmd: Option<Command>) | Stop(last: Option<Command>, end: End)

  /** One pass of the loop body over a payload, in the order the source tests it. */
  function Dispatch(m: Mode, data: string, parse: string -> Option<Object>): (o: Outcome)
  {
    if data == [] then Next(m, None)
    else if data == "getstate" then Stop(Some(Report), Reported)
    else if data == "stream" then Next(m.(dev := true), None)
    else if data == "streamgroup" then Next(m.(grp := true), None)
    else if data == "nostream" then Stop(None, StreamEnded)
    else if m.dev then
      match m.id
      case None =>
        (match ParseInt(data)
         case None => Stop(None, BadId)
         case Some(n) => Next(m.(id := Some(DevId(n))), None))
      case Some(DevId(n)) => Next(m, Some(StreamColor(Device(n), data)))
      case Some(GroupName(_)) => Stop(None, BadTarget)
    else if m.grp then
      match m.id
      case None => Next(m.(id := Some(GroupName(data))), None)
      case Some(GroupName(g)) => Next(m, Some(StreamColor(Group(g), data)))
      case Some(DevId(_)) => Next(m, Some(StreamNowhere))
    else
      match parse(data)
      case None => Stop(None, BadJson)
      case Some(o) => Stop(Some(Request(o)), Requested)
  }

  function Cmds(c: Option<Command>): (cs: seq<Command>)
    ensures |cs| <= 1 && (c.Some? ==> cs == [c.value]) && (c.None? ==> cs == [])
  {
    if c.Some? then [c.value] else []
  }

  /**
   * The commands `listen_client` issues for a sequence of payloads, from
   * the given flags, when none of them raises.
   */
  function PlanFrom(m: Mode, payloads: seq<string>, parse: string -> Option<Object>): (s: Session)
    decreases |payloads|
  {
    if payloads == [] then Session([], Closed)
    else
      match Dispatch(m, payloads[0], parse)
      case Next(m', c) =>
        var s := PlanFrom(m', payloads[1..], parse);
        Session(Cmds(c) + s.cmds, s.end)
      case Stop(c, e) => Session(Cmds(c), e)
  }

  /**
   * Only streaming goes on: a payload that continues the loop issues at most
   * a stream command; a state reply or a request ends it. From flags the
   * loop can reach, it reaches only such flags and never streams an integer
   * id to a group.
   */
  lemma DispatchShape(m: Mode, data: string, parse: string -> Option<Object>)
    ensures var o := Dispatch(m, data, parse);
      && (o.Next? && o.cmd.Some? ==> o.cmd.value.StreamColor? || o.cmd.value.StreamNowhere?)
      && (o.Stop? ==> (o.end == Reported <==> o.last == Some(Report)))
      && (o.Stop? ==> (o.end == Requested <==> o.last.Some? && o.last.value.Request?))
      && (o.Stop? && o.last.Some? ==> o.end == Reported || o.end == Requested)
      && (Coherent(m) && o.Next? ==> Coherent(o.mode) && o.cmd != Some(StreamNowhere))
  {
  }

  /**
   * A state reply or a request is always the last command and everything
   * before it is a stream command.
   */
  lemma {:induction false} PlanShape(m: Mode, payloads: seq<string>, parse: string -> Option<Object>)
    ensures var s := PlanFrom(m, payloads, parse);
      && (s.end == Reported <==> s.cmds != [] && s.cmds[|s.cmds| - 1] == Report)
      && (s.end == Requested <==> s.cmds != [] && s.cmds[|s.cmds| - 1].Request?)
      && (forall i :: 0 <= i < |s.cmds| - 1 ==> s.cmds[i].StreamColor? || s.cmds[i].StreamNowhere?)
    decreases |payloads|
  {
    if payloads != [] {
      DispatchShape(m, payloads[0], parse);
      match Dispatch(m, payloads[0], parse)
      case Next(m', c) =>
        PlanShape(m', payloads[1..], parse);
        var t := PlanFrom(m', payloads[1..], parse);
        assert PlanFrom(m, payloads, parse) == Session(Cmds(c) + t.cmds, t.end);
      case Stop(_, _) =>
    }
  }

  /** From a fresh connection, an integer id is never streamed to a group. */
  lemma {:induction false} PlanCoherent(m: Mode, payloads: seq<string>, parse: string -> Option<Object>)
    requires Coherent(m)
    ensures forall c :: c in PlanFrom(m, payloads, parse).cmds ==> c != StreamNowhere
    decreases |payloads|
  {
    if payloads != [] {
      DispatchShape(m, payloads[0], parse);
      match Dispatch(m, payloads[0], parse)
      case Next(m', c) =>
        PlanCoherent(m', payloads[1..], parse);
        var t := PlanFrom(m', payloads[1..], parse);
        assert PlanFrom(m, payloads, parse) == Session(Cmds(c) + t.cmds, t.end);
      case Stop(_, _) =>
    }
  }

  /** The commands of a whole connection. */
  function Plan(stream: string, parse: string -> Option<Object>): Session
  {
    PlanFrom(Fresh, Frames(stream), parse)
  }

  /** A run of colours streamed to one target. */
  function Streamed(target: Target, colors: seq<string>): (cmds: seq<Command>)
    ensures |cmds| == |colors| && forall i :: 0 <= i < |colors| ==> cmds[i] == StreamColor(target, colors[i])
  {
    seq(|colors|, i requires 0 <= i < |colors| => StreamColor(target, colors[i]))
  }

  /** Payloads that can only be colours: not empty and not a control word. */
  predicate Colours(colors: seq<string>)
  {
    forall i :: 0 <= i < |colors| ==> colors[i] != [] && !Control(colors[i])
  }

  /** Once the target is set, every colour payload is one stream command, in order. */
  lemma {:induction false} StreamRun(m: Mode, target: Target, colors: seq<string>, tail: seq<string>,
                                     parse: string -> Option<Object>)
    requires forall i :: 0 <= i < |colors| ==> Dispatch(m, colors[i], parse) == Next(m, Some(StreamColor(target, colors[i])))
    ensures var after := PlanFrom(m, tail, parse);
      PlanFrom(m, colors + tail, parse) == Session(Streamed(target, colors) + after.cmds, after.end)
  {
    if colors == [] {
      assert colors + tail == tail;
    } else {
      ConsAppend(colors, tail);
      PlanStep(m, colors[0], colors[1..] + tail, parse);
      StreamRun(m, target, colors[1..], tail, parse);
      var head, more := [StreamColor(target, colors[0])], Streamed(target, colors[1..]);
      assert Streamed(target, colors) == head + more;
      AppendAssoc(head, more, PlanFrom(m, tail, parse).cmds);
    }
  }

  lemma AppendAssoc<T>(a: seq<T>, b: seq<T>, c: seq<T>)
    ensures a + (b + c) == (a + b) + c
  {
  }

  /** With the target set, a colour payload is streamed to it and the flags stay. */
  lemma StreamStep(m: Mode, data: string, parse: string -> Option<Object>)
    requires data != [] && !Control(data) && m.id.Some? && (m.dev || m.grp)
    requires m.dev ==> m.id.value.DevId?
    requires !m.dev ==> m.id.value.GroupName?
    ensures var target := if m.dev then Device(m.id.value.n) else Group(m.id.value.g);
      Dispatch(m, data, parse) == Next(m, Some(StreamColor(target, data)))
  {
  }

  /**
   * A device streaming connection: "stream", the index, the colours,
   * "nostream" streams each colour to that device and then ends.
   */
  lemma DeviceStreamSession(index: string, n: int, colors: seq<string>, parse: string -> Option<Object>)
    requires ParseInt(index) == Some(n) && Colours(colors)
    ensures PlanFrom(Fresh, ["stream", index] + colors + ["nostream"], parse) ==
      Session(Streamed(Device(n), colors), StreamEnded)
  {
    var ps := ["stream", index] + colors + ["nostream"];
    assert ps[1..] == [index] + colors + ["nostream"];
    assert ps[2..] == colors + ["nostream"];
    assert !Control(index) by { assert index[0] != 'g' && index[0] != 's' && index[0] != 'n' by { DigitStart(index); } }
    var m := Mode(true, false, Some(DevId(n)));
    forall i | 0 <= i < |colors|
      ensures Dispatch(m, colors[i], parse) == Next(m, Some(StreamColor(Device(n), colors[i])))
    {
      StreamStep(m, colors[i], parse);
    }
    StreamRun(m, Device(n), colors, ["nostream"], parse);
  }

  lemma DigitStart(s: string)
    requires ParseInt(s).Some?
    ensures s[0] == '-' || s[0] == '+' || IsDigit(s[0])
  {
  }

  /**
   * A group streaming connection: "streamgroup", the name, the colours,
   * "nostream" streams each colour to that group and then ends.
   */
  lemma GroupStreamSession(name: string, colors: seq<string>, parse: string -> Option<Object>)
    requires name != [] && !Control(name) && Colours(colors)
    ensures PlanFrom(Fresh, ["streamgroup", name] + colors + ["nostream"], parse) ==
      Session(Streamed(Group(name), colors), StreamEnded)
  {
    var ps := ["streamgroup", name] + colors + ["nostream"];
    assert ps[1..] == [name] + colors + ["nostream"];
    assert ps[2..] == colors + ["nostream"];
    var m := Mode(false, true, Some(GroupName(name)));
    forall i | 0 <= i < |colors|
      ensures Dispatch(m, colors[i], parse) == Next(m, Some(StreamColor(Group(name), colors[i])))
    {
      StreamStep(m, colors[i], parse);
    }
    StreamRun(m, Group(name), colors, ["nostream"], parse);
  }

  /** The payloads without the empty ones. */
  function NonEmpty(payloads: seq<string>): (r: seq<string>)
    ensures |r| <= |payloads| && forall i :: 0 <= i < |r| ==> r[i] != []
  {
    if payloads == [] then []
    else if payloads[0] == [] then NonEmpty(payloads[1..])
    else [payloads[0]] + NonEmpty(payloads[1..])
  }

  /** Empty payloads are skipped: they change neither the flags nor the commands. */
  lemma {:induction false} EmptyPayloadsIgnored(m: Mode, payloads: seq<string>, parse: string -> Option<Object>)
    ensures PlanFrom(m, NonEmpty(payloads), parse) == PlanFrom(m, payloads, parse)
    decreases |payloads|
  {
    if payloads != [] {
      if payloads[0] == [] {
        EmptyPayloadsIgnored(m, payloads[1..], parse);
      } else {
        var r := NonEmpty(payloads);
        assert r == [payloads[0]] + NonEmpty(payloads[1..]);
        assert r[0] == payloads[0] && r[1..] == NonEmpty(payloads[1..]);
        match Dispatch(m, payloads[0], parse)
        case Next(m', _) =>
          EmptyPayloadsIgnored(m', payloads[1..], parse);
        case Stop(_, _) =>
      }
    }
  }

  /**
   * A framed transmission is planned from its payloads: the 4-digit headers
   * the client writes are read back exactly.
   */
  lemma PlanFramed(payloads: seq<string>, parse: string -> Option<Object>)
    requires forall i :: 0 <= i < |payloads| ==> |payloads[i]| < 10000
    ensures Plan(FrameAll(payloads), parse) == PlanFrom(Fresh, payloads, parse)
  {
    FramesFrameAll(payloads, []);
    assert FrameAll(payloads) + [] == FrameAll(payloads);
    assert Unframe([]) == None;
    assert Frames(FrameAll(payloads)) == payloads + [] == payloads;
  }

  /**
   * The JSON client's connection: the fixed "1024" header, then a request
   * that may be shorter, is one request and nothing else.
   */
  lemma RequestSession(request: string, o: Object, parse: string -> Option<Object>)
    requires |request| <= 1024 && request != [] && !Control(request) && parse(request) == Some(o)
    ensures Plan(Header(1024) + request, parse) == Session([Request(o)], Requested)
  {
    UnframeShort(1024, request);
    assert Unframe([]) == None;
    assert Frames(Header(1024) + request) == [request];
    PlanStep(Fresh, request, [], parse);
    assert [request] + [] == [request];
  }

  /**
   * What one command does to the manager and its devices: a state reply
   * changes nothing; a stream command is `set_light_stream`, whose `reinit`
   * runs unless it raised; a stream to an integer id reaches no device and
   * only reinitialises; a request is `_validate_and_execute_req` on the
   * sanitised object. A stream command uses the corrected `Stream`, as
   * `LightManager.SetLightStream` does: as written (play.py:463) a stream to
   * one device raises at its first colour before reaching any device, which
   * `LightManager.SetLightStreamAsWritten` and `Sweeping.StreamAsWritten` show.
   */
  function Execute(c: Config, s: Snap, cmd: Command, now: TimeOfDay, air: nat -> Air, k: nat): (e: Effect)
    requires c.Valid() && |s.states| == |c.kinds|
    ensures |e.s.states| == |s.states|
    ensures !cmd.Request? ==> e.s == s.(states := e.s.states)
    ensures 0 <= s.lockcount <= 2 ==> 0 <= e.s.lockcount <= 2
  {
    match cmd
    case Report => Effect(s, k, false)
    case StreamColor(target, color) =>
      var r := Stream(c.kinds, c.groups, s.states, target, color, air, k);
      Effect(s.(states := if r.crashed then r.sts else ReinitAll(r.sts)), r.k, r.crashed)
    case StreamNowhere => Effect(s.(states := ReinitAll(s.states)), k, false)
    case Request(o) => Validated(c, s, Sanitize(o), now, air, k)
  }

  /** The commands carried out in order, stopping at the first one that raises. */
  function Replay(c: Config, s: Snap, cmds: seq<Command>, now: TimeOfDay, air: nat -> Air, k: nat): (e: Effect)
    requires c.Valid() && |s.states| == |c.kinds|
    ensures |e.s.states| == |s.states|
    ensures 0 <= s.lockcount <= 2 ==> 0 <= e.s.lockcount <= 2
    decreases |cmds|
  {
    if cmds == [] then Effect(s, k, false)
    else
      var e := Execute(c, s, cmds[0], now, air, k);
      if e.crashed then e else Replay(c, e.s, cmds[1..], now, air, e.k)
  }

  /** Replaying two runs of commands is replaying the first, then, unless it raised, the second. */
  lemma {:induction false} ReplayAppend(c: Config, s: Snap, a: seq<Command>, b: seq<Command>,
                                        now: TimeOfDay, air: nat -> Air, k: nat)
    requires c.Valid() && |s.states| == |c.kinds|
    ensures var e := Replay(c, s, a, now, air, k);
      Replay(c, s, a + b, now, air, k) == if e.crashed then e else Replay(c, e.s, b, now, air, e.k)
    decreases |a|
  {
    if a == [] {
      assert a + b == b;
    } else {
      assert (a + b)[0] == a[0] && (a + b)[1..] == a[1..] + b;
      var e := Execute(c, s, a[0], now, air, k);
      if !e.crashed {
        ReplayAppend(c, e.s, a[1..], b, now, air, e.k);
      }
    }
  }

  /** A single command replays as itself. */
  lemma ReplayOne(c: Config, s: Snap, cmd: Command, now: TimeOfDay, air: nat -> Air, k: nat)
    requires c.Valid() && |s.states| == |c.kinds|
    ensures Replay(c, s, [cmd], now, air, k) == Execute(c, s, cmd, now, air, k)
  {
    assert [cmd][0] == cmd && [cmd][1..] == [];
  }

  /** State replies alone leave the manager and its devices as they were. */
  lemma {:induction false} ReportsOnly(c: Config, s: Snap, cmds: seq<Command>, now: TimeOfDay, air: nat -> Air, k: nat)
    requires c.Valid() && |s.states| == |c.kinds|
    requires forall i :: 0 <= i < |cmds| ==> cmds[i] == Report
    ensures Replay(c, s, cmds, now, air, k) == Effect(s, k, false)
    decreases |cmds|
  {
    if cmds != [] {
      ReportsOnly(c, s, cmds[1..], now, air, k);
    }
  }

  /**
   * A connection that neither streams a colour nor sends a request leaves
   * the manager and its devices as they were: only the `finally` block acts.
   */
  lemma QuietConnection(c: Config, s: Snap, stream: string, parse: string -> Option<Object>,
                        now: TimeOfDay, air: nat -> Air, k: nat)
    requires c.Valid() && |s.states| == |c.kinds|
    requires forall x :: x in Plan(stream, parse).cmds ==> !x.Request? && !x.StreamColor?
    ensures Replay(c, s, Plan(stream, parse).cmds, now, air, k) == Effect(s, k, false)
  {
    var cmds := Plan(stream, parse).cmds;
    PlanCoherent(Fresh, Frames(stream), parse);
    forall i | 0 <= i < |cmds|
      ensures cmds[i] == Report
    {
      assert cmds[i] in cmds;
    }
    ReportsOnly(c, s, cmds, now, air, k);
  }

  /** The JSON client's connection ends in the state `_validate_and_execute_req` leaves. */
  lemma RequestConnection(c: Config, s: Snap, request: string, o: Object, parse: string -> Option<Object>,
                          now: TimeOfDay, air: nat -> Air, k: nat)
    requires c.Valid() && |s.states| == |c.kinds|
    requires |request| <= 1024 && request != [] && !Control(request) && parse(request) == Some(o)
    ensures Replay(c, s, Plan(Header(1024) + request, parse).cmds, now, air, k)
         == Validated(c, s, Sanitize(o), now, air, k)
  {
    RequestSession(request, o, parse);
    ReplayOne(c, s, Request(o), now, air, k);
  }

  /** The command one pass of the loop body issues, if any. */
  function Issued(o: Outcome): Option<Command>
  {
    if o.Next? then o.cmd else o.last
  }

  /**
   * One pass of the loop body on a payload: the branch `Dispatch` names is
   * taken, and its command, if any, is carried out on the manager.
   */
  method Handle(lm: LightManager, m: Mode, data: string, parse: string -> Option<Object>,
                now: TimeOfDay, air: nat -> Air, k0: nat)
    returns (o: Outcome, k: nat, crashed: bool, reply: Option<seq<string>>)
    requires lm.Valid()
    modifies lm, lm.devices
    ensures lm.Valid()
    ensures o == Dispatch(m, data, parse)
    ensures crashed ==> (o.Next? && o.cmd.Some?) || (o.Stop? && o.last.Some? && o.last.value.Request?)
    ensures reply.Some? <==> o == Stop(Some(Report), Reported)
    ensures reply.Some? ==> reply.value == lm.GetState()
    ensures Issued(o).None? ==> lm.Snapshot() == old(lm.Snapshot()) && k == k0 && !crashed
    ensures Issued(o).Some? ==>
      Effect(lm.Snapshot(), k, crashed) == Execute(lm.Configuration(), old(lm.Snapshot()), Issued(o).value, now, air, k0)
  {
    o, k, crashed, reply := Dispatch(m, data, parse), k0, false, None;
    if data == [] {
      return;
    }
    if data == "getstate" {
      reply := Some(lm.GetState());
      return;
    }
    if data == "stream" || data == "streamgroup" || data == "nostream" {
      return;
    }
    if m.dev {
      if m.id.None? || m.id.value.GroupName? {
        return;
      }
      k, crashed := lm.SetLightStream(Device(m.id.value.n), data, air, k0);
      return;
    }
    if m.grp {
      if m.id.None? {
        return;
      }
      if m.id.value.DevId? {
        lm.Reinit();
        return;
      }
      k, crashed := lm.SetLightStream(Group(m.id.value.g), data, air, k0);
      return;
    }
    var request := parse(data);
    if request.None? {
      return;
    }
    var verdict;
    verdict, k, crashed := ValidateAndExecute(lm, Sanitize(request.value), now, air, k0);
  }

  /** The plan of a payload sequence, one payload at a time. */
  lemma PlanStep(m: Mode, data: string, ps: seq<string>, parse: string -> Option<Object>)
    ensures Dispatch(m, data, parse).Next? ==>
      var o := Dispatch(m, data, parse);
      PlanFrom(m, [data] + ps, parse)
        == Session(Cmds(o.cmd) + PlanFrom(o.mode, ps, parse).cmds, PlanFrom(o.mode, ps, parse).end)
    ensures Dispatch(m, data, parse).Stop? ==>
      var o := Dispatch(m, data, parse);
      PlanFrom(m, [data] + ps, parse) == Session(Cmds(o.last), o.end)
  {
    assert ([data] + ps)[0] == data && ([data] + ps)[1..] == ps;
  }

  /** The two `recv` calls of one loop iteration: the next frame, if any, and what follows it. */
  method ReadFrame(stream: string) returns (frame: Option<(string, string)>)
    ensures frame.None? ==> Frames(stream) == []
    ensures frame.Some? ==> Frames(stream) == [frame.value.0] + Frames(frame.value.1)
    ensures frame.Some? ==> |frame.value.1| < |stream|
  {
    frame := Unframe(stream);
  }

  /**
   * How the loop may end: every planned command issued, or the commands up
   * to one that raised; a state reply exactly when "getstate" ended it.
   */
  predicate Ended(plan: Session, done: seq<Command>, failed: bool, replied: bool)
  {
    && done <= plan.cmds
    && (!failed ==> done == plan.cmds)
    && (failed ==> done != [] && done[|done| - 1] != Report)
    && (replied <==> !failed && plan.end == Reported)
  }

  /**
   * The `while True` loop of `listen_client`: reads frames until the loop
   * breaks or the stream ends, carrying out the planned commands until one
   * raises. The manager and its devices end as the replay of the plan leaves them.
   */
  method Converse(lm: LightManager, stream: string, parse: string -> Option<Object>,
                  now: TimeOfDay, air: nat -> Air, k0: nat)
    returns (reply: Option<seq<string>>, k: nat, ghost done: seq<Command>, ghost failed: bool)
    requires lm.Valid()
    modifies lm, lm.devices
    ensures lm.Valid()
    ensures Ended(Plan(stream, parse), done, failed, reply.Some?)
    ensures reply.Some? ==> reply.value == lm.GetState()
    ensures Effect(lm.Snapshot(), k, failed)
      == Replay(lm.Configuration(), old(lm.Snapshot()), Plan(stream, parse).cmds, now, air, k0)
  {
    ghost var plan := Plan(stream, parse);
    ghost var cfg := lm.Configuration();
    ghost var s0 := lm.Snapshot();
    var mode := Fresh;
    var rest := stream;
    var stop := false;
    reply, k, done, failed := None, k0, [], false;
    while !stop
      invariant lm.Valid()
      invariant Replay(cfg, s0, done, now, air, k0) == Effect(lm.Snapshot(), k, failed)
      invariant !stop ==> && !failed && reply.None?
                          && var s := PlanFrom(mode, Frames(rest), parse); plan == Session(done + s.cmds, s.end)
      invariant stop ==> && Ended(plan, done, failed, reply.Some?)
                         && Replay(cfg, s0, plan.cmds, now, air, k0) == Replay(cfg, s0, done, now, air, k0)
      invariant reply.Some? ==> reply.value == lm.GetState()
      decreases !stop, |rest|
    {
      stop, mode, rest, k, reply, done, failed := Pass(lm, mode, rest, parse, now, air, k, cfg, s0, plan, done, k0);
    }
  }

  /**
   * One iteration of the loop: the next frame is read and handled, and the
   * loop stops when the stream ends, the body breaks or an exception
   * escapes. The commands issued so far replay to the manager's new state.
   */
  method Pass(lm: LightManager, mode: Mode, rest: string, parse: string -> Option<Object>,
              now: TimeOfDay, air: nat -> Air, k0: nat,
              ghost cfg: Config, ghost s0: Snap, ghost plan: Session, ghost done: seq<Command>, ghost kd: nat)
    returns (stop: bool, mode': Mode, rest': string, k: nat, reply: Option<seq<string>>,
             ghost done': seq<Command>, ghost failed: bool)
    requires lm.Valid() && cfg == lm.Configuration() && |s0.states| == |cfg.kinds|
    requires var s := PlanFrom(mode, Frames(rest), parse); plan == Session(done + s.cmds, s.end)
    requires Replay(cfg, s0, done, now, air, kd) == Effect(lm.Snapshot(), k0, false)
    modifies lm, lm.devices
    ensures lm.Valid()
    ensures Replay(cfg, s0, done', now, air, kd) == Effect(lm.Snapshot(), k, failed)
    ensures !stop ==> && !failed && reply.None? && |rest'| < |rest|
                      && var s := PlanFrom(mode', Frames(rest'), parse); plan == Session(done' + s.cmds, s.end)
    ensures stop ==> && Ended(plan, done', failed, reply.Some?)
                     && Replay(cfg, s0, plan.cmds, now, air, kd) == Replay(cfg, s0, done', now, air, kd)
    ensures reply.Some? ==> reply.value == lm.GetState()
  {
    mode', rest', k, reply, done', failed := mode, rest, k0, None, done, false;
    var frame := ReadFrame(rest);
    if frame.None? {
      return true, mode', rest', k, reply, done', failed;
    }
    var data := frame.value.0;
    rest' := frame.value.1;
    Advance(plan, done, mode, data, Frames(rest'), parse);
    var o, c;
    o, k, c, reply := Serve(lm, mode, data, parse, now, air, k0, cfg, s0, done, kd);
    if o.Stop? {
      return true, mode', rest', k, reply, done + Cmds(o.last), c;
    }
    done', mode', failed := done + Cmds(o.cmd), o.mode, c;
    stop := c;
    if c {
      ReplayAppend(cfg, s0, done', PlanFrom(mode', Frames(rest'), parse).cmds, now, air, kd);
    }
  }

  /** The loop body proper: `Handle`, as one more step of the connection's replay. */
  method Serve(lm: LightManager, m: Mode, data: string, parse: string -> Option<Object>,
               now: TimeOfDay, air: nat -> Air, k0: nat,
               ghost cfg: Config, ghost s0: Snap, ghost done: seq<Command>, ghost kd: nat)
    returns (o: Outcome, k: nat, crashed: bool, reply: Option<seq<string>>)
    requires lm.Valid() && cfg == lm.Configuration() && |s0.states| == |cfg.kinds|
    requires Replay(cfg, s0, done, now, air, kd) == Effect(lm.Snapshot(), k0, false)
    modifies lm, lm.devices
    ensures lm.Valid() && o == Dispatch(m, data, parse)
    ensures crashed ==> (o.Next? && o.cmd.Some?) || (o.Stop? && o.last.Some? && o.last.value.Request?)
    ensures reply.Some? <==> o == Stop(Some(Report), Reported)
    ensures reply.Some? ==> reply.value == lm.GetState()
    ensures Replay(cfg, s0, done + Cmds(Issued(o)), now, air, kd) == Effect(lm.Snapshot(), k, crashed)
  {
    o, k, crashed, reply := Handle(lm, m, data, parse, now, air, k0);
    Carried(cfg, s0, done, Issued(o), now, air, kd, k0);
  }

  /**
   * The loop's bookkeeping: the commands issued so far, then those planned
   * from the flags and the frames left, make up the connection's plan.
   */
  lemma Advance(plan: Session, done: seq<Command>, m: Mode, data: string, rest: seq<string>,
                parse: string -> Option<Object>)
    requires var s := PlanFrom(m, [data] + rest, parse); plan == Session(done + s.cmds, s.end)
    ensures var o := Dispatch(m, data, parse);
      && (o.Stop? ==> plan == Session(done + Cmds(o.last), o.end))
      && (o.Stop? ==> (o.end == Reported <==> o.last == Some(Report)))
      && (o.Next? ==> var s := PlanFrom(o.mode, rest, parse);
                      plan == Session((done + Cmds(o.cmd)) + s.cmds, s.end))
      && (o.Next? && o.cmd.Some? ==> o.cmd.value != Report)
  {
    PlanStep(m, data, rest, parse);
    DispatchShape(m, data, parse);
    var o := Dispatch(m, data, parse);
    if o.Next? {
      AppendAssoc(done, Cmds(o.cmd), PlanFrom(o.mode, rest, parse).cmds);
    }
  }

  /** Carrying out the command a pass issues extends the replay by that command. */
  lemma Carried(c: Config, s: Snap, done: seq<Command>, cmd: Option<Command>, now: TimeOfDay, air: nat -> Air,
                k0: nat, k: nat)
    requires c.Valid() && |s.states| == |c.kinds|
    requires !Replay(c, s, done, now, air, k0).crashed && Replay(c, s, done, now, air, k0).k == k
    ensures var e := Replay(c, s, done, now, air, k0);
      Replay(c, s, done + Cmds(cmd), now, air, k0)
        == if cmd.Some? then Execute(c, e.s, cmd.value, now, air, k) else Effect(e.s, k, false)
  {
    var e := Replay(c, s, done, now, air, k0);
    ReplayAppend(c, s, done, Cmds(cmd), now, air, k0);
    if cmd.Some? {
      ReplayOne(c, e.s, cmd.value, now, air, k);
    }
  }

  /**
   * `listen_client` on one connection: the loop, then the `finally` block,
   * which always releases the lock and clears every success flag. The state
   * reply is what the devices held at "getstate".
   */
  method ListenClient(lm: LightManager, stream: string, parse: string -> Option<Object>,
                      now: TimeOfDay, air: nat -> Air, k0: nat)
    returns (reply: Option<seq<string>>, k: nat, ghost done: seq<Command>, ghost failed: bool)
    requires lm.Valid()
    modifies lm, lm.devices
    ensures lm.Valid() && !lm.locked
    ensures forall d :: 0 <= d < |lm.devices| ==> !lm.States()[d].success
    ensures Ended(Plan(stream, parse), done, failed, reply.Some?)
    ensures reply.Some? ==> reply.value == lm.GetState()
    ensures var e := Replay(lm.Configuration(), old(lm.Snapshot()), Plan(stream, parse).cmds, now, air, k0);
      && lm.Snapshot() == e.s.(states := ReinitAll(e.s.states), locked := false)
      && k == e.k && failed == e.crashed
  {
    reply, k, done, failed := Converse(lm, stream, parse, now, air, k0);
    lm.SetLock(false);
    lm.Reinit();
  }
}

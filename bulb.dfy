/**
 * The two kinds of lightbulb and the decision list each runs on a colour
 * request. The radio is abstracted: every BLE write consumes one Radio, which
 * says whether a connection attempt succeeds and whether the characteristic
 * write goes through. A Python exception that escapes `color` is the Crash
 * reply.
 */
module Bulbs {

  import opened Wire
  import opened MilightCodec

  /** The request tokens every device understands. */
  const Skip: string := "-1"
  const Off: string := "0"
  const On: string := "1"

  /** The Playbulb's own code for "off" (four zero bytes: white, red, green, blue). */
  const PlaybulbOff: string := "00000000"

  datatype Kind =
    | Playbulb(intensity: string)
    | Milight(id1: int, id2: int)

  /** The outcome of one connection attempt and one characteristic write. */
  datatype Radio = Radio(connects: bool, sends: bool)

  /** A colour request performs at most two writes; each gets its own Radio. */
  datatype Air = Air(first: Radio, second: Radio)

  /** `color` returns True, returns False, or raises. */
  datatype Reply = Done | Retry | Crash

  /** The mutable part of a device. */
  datatype BulbState = BulbState(success: bool, priority: int, state: string, connected: bool)

  /**
   * What one write puts on the air, named by its source: a Playbulb token
   * read as hex, or the Milight command built from a plaintext.
   */
  datatype Payload = HexBytes(text: string) | MilightCommand(query: seq<int>)

  /** The bytes of a payload. */
  function Bytes(p: Payload): (bs: seq<byte>)
    ensures p.HexBytes? && ValidHex(p.text) ==> bs == FromHex(p.text)
    ensures p.MilightCommand? && IsPlaintext(p.query) ==> bs == CommandBytes(p.query) && |bs| == 12
  {
    match p
    case HexBytes(text) => if ValidHex(text) then FromHex(text) else []
    case MilightCommand(query) => if IsPlaintext(query) then CommandBytes(query) else []
  }

  /** The byte strings of a run of payloads, in order. */
  function AirBytes(ps: seq<Payload>): (r: seq<seq<byte>>)
    ensures |r| == |ps| && forall i :: 0 <= i < |ps| ==> r[i] == Bytes(ps[i])
  {
    seq(|ps|, i requires 0 <= i < |ps| => Bytes(ps[i]))
  }

  /** The effect of one call: the new device state, the reply, the payloads put on the air. */
  datatype Step = Step(after: BulbState, reply: Reply, issued: seq<Payload>)

  /** What a device holds right after construction. */
  function Initial(kind: Kind): (s: BulbState)
    ensures !s.success && s.priority == 0 && !s.connected
    ensures s.state == (if kind.Playbulb? then PlaybulbOff else Off)
  {
    BulbState(false, 0, if kind.Playbulb? then PlaybulbOff else Off, false)
  }

  /** `convert`: the Playbulb spells "off" and "on" out; the Milight takes tokens as they are. */
  function Convert(kind: Kind, token: string): string
  {
    match kind
    case Playbulb(intensity) =>
      if token == Off then PlaybulbOff else if token == On then intensity else token
    case Milight(_, _) => token
  }

  /** Converting twice is converting once, unless the default intensity is itself "0" or "1". */
  lemma ConvertIdempotent(kind: Kind, token: string)
    requires kind.Playbulb? ==> kind.intensity != Off && kind.intensity != On
    ensures Convert(kind, Convert(kind, token)) == Convert(kind, token)
    ensures kind.Milight? ==> Convert(kind, token) == token
    ensures token != Off && token != On ==> Convert(kind, token) == token
  {
  }

  /** A requested priority as the device stores it: 3 (streaming) is kept as 1. */
  function Adopted(priority: int): int
  {
    if priority == 3 then 1 else priority
  }

  // ----------------------------------------------------------- writing

  /**
   * `connect_ble` followed by `_write`: connect when not connected; with a
   * connection, set the state and write; any failure of the write (bad hex
   * included) restores the state and drops the connection. Without a
   * connection the state is restored and nothing is sent.
   */
  function WriteSpec(s: BulbState, payload: Option<Payload>, token: string, radio: Radio): (st: Step)
    ensures st.reply != Crash
  {
    if !(s.connected || radio.connects) then Step(s, Retry, [])
    else if payload.None? || !radio.sends then Step(s.(connected := false), Retry, [])
    else Step(s.(state := token, success := true, connected := true), Done, [payload.value])
  }

  /** The payload of a Playbulb token; None where `bytearray.fromhex` raises. */
  function PlaybulbPayload(token: string): Option<Payload>
  {
    if ValidHex(token) then Some(HexBytes(token)) else None
  }

  /** A Milight write of the command built from plaintext `query`. */
  function MilightWriteSpec(s: BulbState, query: seq<int>, token: string, radio: Radio): Step
    requires IsPlaintext(query)
  {
    WriteSpec(s, Some(MilightCommand(query)), token, radio)
  }

  /**
   * `turn_on` and then, only when it returned True, a second write. The
   * second plaintext is None when building it raises (a colour token that is
   * not an integer literal), after `turn_on` already went through.
   */
  function TurnOnThenSpec(id1: int, id2: int, s: BulbState, second: Option<seq<int>>, token: string, air: Air): Step
    requires second.Some? ==> IsPlaintext(second.value)
  {
    var on := MilightWriteSpec(s, TurnOnQuery(id1, id2), On, air.first);
    if on.reply != Done then on
    else match second
      case None => Step(on.after, Crash, on.issued)
      case Some(q) =>
        var w := MilightWriteSpec(on.after, q, token, air.second);
        Step(w.after, w.reply, on.issued + w.issued)
  }

  /** The set-colour plaintext for a token, when the token is an integer literal. */
  function ColourQuery(id1: int, id2: int, token: string): (q: Option<seq<int>>)
    ensures q.Some? <==> DecimalLiteral(token).Some?
    ensures q.Some? ==> IsPlaintext(q.value) && q.value[6] == DecimalLiteral(token).value
  {
    match DecimalLiteral(token)
    case None => None
    case Some(c) => Some(SetColourQuery(id1, id2, c))
  }

  // ------------------------------------------------------ decision list

  /** The tokens a device does not dismiss as an unhandled format. */
  predicate Handled(kind: Kind, token: string)
  {
    match kind
    case Playbulb(_) => |token| == 1 || |token| == 8 || token == Skip
    case Milight(_, _) => |token| <= 3
  }

  /** The request gets past the format, success, skip and priority checks. */
  predicate Admitted(kind: Kind, s: BulbState, token: string, priority: int)
  {
    Handled(kind, token) && !s.success && token != Skip && s.priority <= priority
  }

  /** `Playbulb.color`. */
  function PlaybulbColorSpec(s: BulbState, token: string, priority: int, radio: Radio): Step
  {
    if !(|token| == 1 || |token| == 8 || token == Skip) then Step(s, Done, [])
    else if s.success then Step(s, Done, [])
    else if token == Skip then Step(s.(success := true), Done, [])
    else if s.priority > priority then Step(s.(success := true), Done, [])
    else
      var s1 := s.(priority := Adopted(priority));
      if s1.state == token && token != PlaybulbOff then Step(s1.(success := true), Done, [])
      else WriteSpec(s1, PlaybulbPayload(token), token, radio)
  }

  /** `Milight.color`. */
  function MilightColorSpec(id1: int, id2: int, s: BulbState, token: string, priority: int, air: Air): Step
  {
    if |token| > 3 then Step(s, Done, [])
    else if s.success then Step(s, Done, [])
    else if token == Skip then Step(s.(success := true), Done, [])
    else if s.priority > priority then Step(s.(success := true), Done, [])
    else
      var s1 := s.(priority := Adopted(priority));
      if token == Off then MilightWriteSpec(s1, TurnOffQuery(id1, id2), Off, air.first)
      else if s1.state == token then Step(s1.(success := true), Done, [])
      else if token == On then TurnOnThenSpec(id1, id2, s1, Some(DimOnQuery(id1, id2)), On, air)
      else TurnOnThenSpec(id1, id2, s1, ColourQuery(id1, id2, token), token, air)
  }

  /** `color(token, priority)` on a device of the given kind. */
  function ColorSpec(kind: Kind, s: BulbState, token: string, priority: int, air: Air): Step
  {
    match kind
    case Playbulb(_) => PlaybulbColorSpec(s, token, priority, air.first)
    case Milight(id1, id2) => MilightColorSpec(id1, id2, s, token, priority, air)
  }

  // -------------------------------------------------- decision lemmas

  /** An unhandled format is answered True and changes nothing. */
  lemma UnhandledIgnored(kind: Kind, s: BulbState, token: string, priority: int, air: Air)
    requires !Handled(kind, token)
    ensures ColorSpec(kind, s, token, priority, air) == Step(s, Done, [])
  {
  }

  /** A device that already succeeded for this request is left alone. */
  lemma SucceededIgnored(kind: Kind, s: BulbState, token: string, priority: int, air: Air)
    requires s.success
    ensures ColorSpec(kind, s, token, priority, air) == Step(s, Done, [])
  {
  }

  /** "-1" counts as done without touching state or priority. */
  lemma SkipMarksSuccess(kind: Kind, s: BulbState, priority: int, air: Air)
    requires !s.success
    ensures ColorSpec(kind, s, Skip, priority, air) == Step(s.(success := true), Done, [])
  {
  }

  /** A device held at a higher priority counts the request as done and keeps its colour. */
  lemma OutrankedMarksSuccess(kind: Kind, s: BulbState, token: string, priority: int, air: Air)
    requires Handled(kind, token) && !s.success && token != Skip && s.priority > priority
    ensures ColorSpec(kind, s, token, priority, air) == Step(s.(success := true), Done, [])
  {
  }

  /** The stored priority changes exactly for admitted requests, to the adopted value. */
  lemma PriorityAdoption(kind: Kind, s: BulbState, token: string, priority: int, air: Air)
    ensures ColorSpec(kind, s, token, priority, air).after.priority
         == (if Admitted(kind, s, token, priority) then Adopted(priority) else s.priority)
  {
    var r := ColorSpec(kind, s, token, priority, air);
    if Admitted(kind, s, token, priority) {
      MilightAdoptionSurvivesWrites(kind, s, token, priority, air);
    }
  }

  lemma MilightAdoptionSurvivesWrites(kind: Kind, s: BulbState, token: string, priority: int, air: Air)
    requires Admitted(kind, s, token, priority)
    ensures ColorSpec(kind, s, token, priority, air).after.priority == Adopted(priority)
  {
    if kind.Milight? && token != Off && s.state != token {
      var s1 := s.(priority := Adopted(priority));
      var q := if token == On then Some(DimOnQuery(kind.id1, kind.id2)) else ColourQuery(kind.id1, kind.id2, token);
      TurnOnThenKeepsPriority(kind.id1, kind.id2, s1, q, if token == On then On else token, air);
    }
  }

  lemma TurnOnThenKeepsPriority(id1: int, id2: int, s: BulbState, second: Option<seq<int>>, token: string, air: Air)
    requires second.Some? ==> IsPlaintext(second.value)
    ensures TurnOnThenSpec(id1, id2, s, second, token, air).after.priority == s.priority
  {
  }

  /**
   * A streaming request (priority 3) against a device held at 2 or 3 is
   * admitted and lowers the stored priority to 1.
   */
  lemma StreamLowersPriority(kind: Kind, s: BulbState, token: string, air: Air)
    requires Handled(kind, token) && !s.success && token != Skip && 1 < s.priority <= 3
    ensures ColorSpec(kind, s, token, 3, air).after.priority == 1
  {
    PriorityAdoption(kind, s, token, 3, air);
  }

  /** A Playbulb already showing the token (other than off) is done without a write. */
  lemma PlaybulbAlreadyThere(intensity: string, s: BulbState, token: string, priority: int, air: Air)
    requires Admitted(Playbulb(intensity), s, token, priority)
    requires s.state == token && token != PlaybulbOff
    ensures ColorSpec(Playbulb(intensity), s, token, priority, air)
         == Step(s.(priority := Adopted(priority), success := true), Done, [])
  {
  }

  /**
   * Otherwise an admitted Playbulb request writes the token's bytes. It
   * succeeds exactly when a connection exists or is made, the token is valid
   * hex and the write goes through; a failure leaves the colour and success
   * flag as they were and the device disconnected.
   */
  lemma PlaybulbWrites(intensity: string, s: BulbState, token: string, priority: int, air: Air)
    requires Admitted(Playbulb(intensity), s, token, priority)
    requires !(s.state == token && token != PlaybulbOff)
    ensures var r := ColorSpec(Playbulb(intensity), s, token, priority, air);
      && (r.reply == Done <==> (s.connected || air.first.connects) && ValidHex(token) && air.first.sends)
      && (r.reply == Done ==> r.after.state == token && r.after.success && r.after.connected
                              && AirBytes(r.issued) == [FromHex(token)])
      && (r.reply == Retry ==> r.after.state == s.state && !r.after.success && !r.after.connected
                               && r.issued == [])
      && r.reply != Crash
  {
  }

  /** A Playbulb never ends up in state "0": a one-character token is never valid hex. */
  lemma PlaybulbNeverZero(intensity: string, s: BulbState, token: string, priority: int, air: Air)
    requires s.state != Off
    ensures ColorSpec(Playbulb(intensity), s, token, priority, air).after.state != Off
  {
  }

  /**
   * An admitted Milight "0" always sends the turn-off command, even when the
   * state is already "0"; no other byte string is sent.
   */
  lemma MilightOffAlwaysWrites(id1: int, id2: int, s: BulbState, priority: int, air: Air)
    requires Admitted(Milight(id1, id2), s, Off, priority)
    ensures var r := ColorSpec(Milight(id1, id2), s, Off, priority, air);
      && (r.reply == Done <==> (s.connected || air.first.connects) && air.first.sends)
      && (r.reply == Done ==> AirBytes(r.issued) == [CommandBytes(TurnOffQuery(id1, id2))]
                              && r.after.state == Off && r.after.success)
      && (r.reply == Retry ==> r.issued == [] && r.after.state == s.state)
  {
  }

  /** "1" turns the Milight on and then sends the dim-on preset, in that order. */
  lemma MilightOnSequence(id1: int, id2: int, s: BulbState, priority: int, air: Air)
    requires Admitted(Milight(id1, id2), s, On, priority) && s.state != On
    requires (s.connected || air.first.connects) && air.first.sends && air.second.sends
    ensures var r := ColorSpec(Milight(id1, id2), s, On, priority, air);
      && r.after == s.(priority := Adopted(priority), state := On, success := true, connected := true)
      && r.reply == Done
      && AirBytes(r.issued) == [CommandBytes(TurnOnQuery(id1, id2)), CommandBytes(DimOnQuery(id1, id2))]
  {
    PresetLayouts(id1, id2, 0);
  }

  /**
   * A colour whose turn-on goes through but whose colour write fails is
   * answered False, yet the device is left in state "1" with its success
   * flag set, so later sweeps of the same request do not retry it.
   */
  lemma MilightHalfDone(id1: int, id2: int, s: BulbState, token: string, priority: int, air: Air)
    requires Admitted(Milight(id1, id2), s, token, priority)
    requires token != Off && token != On && s.state != token && DecimalLiteral(token).Some?
    requires (s.connected || air.first.connects) && air.first.sends && !air.second.sends
    ensures var r := ColorSpec(Milight(id1, id2), s, token, priority, air);
      r.reply == Retry && r.after.state == On && r.after.success && !r.after.connected
      && AirBytes(r.issued) == [CommandBytes(TurnOnQuery(id1, id2))]
  {
  }

  /**
   * A colour token that is not an integer literal raises while the colour
   * command is being built, after the turn-on has already been sent.
   */
  lemma MilightBadColourCrashes(id1: int, id2: int, s: BulbState, token: string, priority: int, air: Air)
    requires Admitted(Milight(id1, id2), s, token, priority)
    requires token != Off && token != On && s.state != token && DecimalLiteral(token).None?
    ensures var r := ColorSpec(Milight(id1, id2), s, token, priority, air);
      (r.reply == Crash <==> (s.connected || air.first.connects) && air.first.sends)
      && (r.reply == Crash ==> r.after.state == On && r.after.success)
  {
  }

  /**
   * Facts every request keeps: success is never cleared; True for a handled
   * token means success is set; False leaves the device disconnected; only
   * a Milight raises.
   */
  lemma ColorInvariants(kind: Kind, s: BulbState, token: string, priority: int, air: Air)
    ensures var r := ColorSpec(kind, s, token, priority, air);
      && (s.success ==> r.after.success)
      && (r.reply == Done && Handled(kind, token) ==> r.after.success)
      && (r.reply == Retry ==> !r.after.connected)
      && (r.reply == Crash ==> kind.Milight?)
  {
  }

  /** The colour changes only by an accepted write, and then to what was written for. */
  lemma StateChangesOnlyByWrite(kind: Kind, s: BulbState, token: string, priority: int, air: Air)
    ensures var r := ColorSpec(kind, s, token, priority, air);
      r.after.state != s.state ==> r.issued != [] && (r.after.state == token || r.after.state == On)
  {
    match kind
    case Playbulb(_) =>
      if Admitted(kind, s, token, priority) && !(s.state == token && token != PlaybulbOff) {
        WriteChangesOnlyOnSend(s.(priority := Adopted(priority)), PlaybulbPayload(token), token, air.first);
      }
    case Milight(id1, id2) =>
      if Admitted(kind, s, token, priority) && s.state != token {
        var s1 := s.(priority := Adopted(priority));
        if token == Off {
          WriteChangesOnlyOnSend(s1, Some(MilightCommand(TurnOffQuery(id1, id2))), Off, air.first);
        } else if token == On {
          TurnOnThenChangesOnlyOnSend(id1, id2, s1, Some(DimOnQuery(id1, id2)), On, air);
        } else {
          TurnOnThenChangesOnlyOnSend(id1, id2, s1, ColourQuery(id1, id2, token), token, air);
        }
      }
  }

  lemma WriteChangesOnlyOnSend(s: BulbState, payload: Option<Payload>, token: string, radio: Radio)
    ensures var r := WriteSpec(s, payload, token, radio);
      r.after.state != s.state ==> r.issued != [] && r.after.state == token
  {
  }

  lemma TurnOnThenChangesOnlyOnSend(id1: int, id2: int, s: BulbState, second: Option<seq<int>>, token: string, air: Air)
    requires second.Some? ==> IsPlaintext(second.value)
    ensures var r := TurnOnThenSpec(id1, id2, s, second, token, air);
      r.after.state != s.state ==> r.issued != [] && (r.after.state == token || r.after.state == On)
  {
    PresetLayouts(id1, id2, 0);
  }

  // ------------------------------------------------------------ device

  /** A configured lightbulb. */
  class Bulb {
    const kind: Kind
    const group: string
    const subgroup: string
    var success: bool
    var priority: int
    var state: string
    var connected: bool
    /** Every byte string this device wrote over the air, oldest first. */
    ghost var written: seq<seq<byte>>

    function St(): BulbState
      reads this
    {
      BulbState(success, priority, state, connected)
    }

    constructor(kind: Kind, group: string, subgroup: string)
      ensures this.kind == kind && this.group == group && this.subgroup == subgroup
      ensures St() == Initial(kind) && written == []
    {
      this.kind := kind;
      this.group := group;
      this.subgroup := subgroup;
      success := false;
      priority := 0;
      state := if kind.Playbulb? then PlaybulbOff else Off;
      connected := false;
      written := [];
    }

    /** `reinit`: ready for the next request; the stored priority stays. */
    method Reinit()
      modifies this
      ensures St() == old(St()).(success := false) && written == old(written)
    {
      success := false;
    }

    /** `disconnect`. */
    method Disconnect()
      modifies this
      ensures St() == old(St()).(connected := false) && written == old(written)
    {
      connected := false;
    }

    /** The `connect_ble` wrapper. */
    method Connect(radio: Radio)
      modifies this
      ensures St() == old(St()).(connected := old(connected) || radio.connects)
      ensures written == old(written)
    {
      if !connected {
        connected := radio.connects;
      }
    }

    /** `Playbulb._write`. */
    method PlaybulbWrite(token: string, radio: Radio) returns (reply: Reply)
      requires kind.Playbulb?
      modifies this
      ensures var st := WriteSpec(old(St()), PlaybulbPayload(token), token, radio);
        St() == st.after && reply == st.reply && written == old(written) + AirBytes(st.issued)
    {
      Connect(radio);
      var oldState := state;
      if connected {
        state := token;
        if ValidHex(token) && radio.sends {
          written := written + [FromHex(token)];
          success := true;
          reply := Done;
        } else {
          state := oldState;
          Disconnect();
          reply := Retry;
        }
      } else {
        state := oldState;
        reply := Retry;
      }
    }

    /** `Milight._write` of the command `get_query` builds from `query`. */
    method MilightWrite(query: seq<int>, token: string, radio: Radio) returns (reply: Reply)
      requires kind.Milight? && IsPlaintext(query)
      modifies this
      ensures var st := MilightWriteSpec(old(St()), query, token, radio);
        St() == st.after && reply == st.reply && written == old(written) + AirBytes(st.issued)
    {
      var command := CreateCommand(query);
      ghost var sent := CommandBytes(query);
      FromHexString(sent);
      assert FromHex(command) == sent && AirBytes([MilightCommand(query)]) == [sent];
      Connect(radio);
      var oldState := state;
      if connected {
        state := token;
        if radio.sends {
          written := written + [FromHex(command)];
          success := true;
          reply := Done;
        } else {
          state := oldState;
          connected := false;
          reply := Retry;
        }
      } else {
        state := oldState;
        reply := Retry;
      }
    }

    /** `turn_on`. */
    method TurnOn(radio: Radio) returns (reply: Reply)
      requires kind.Milight?
      modifies this
      ensures var st := MilightWriteSpec(old(St()), TurnOnQuery(kind.id1, kind.id2), On, radio);
        St() == st.after && reply == st.reply && written == old(written) + AirBytes(st.issued)
    {
      PresetLayouts(kind.id1, kind.id2, 0);
      reply := MilightWrite(TurnOnQuery(kind.id1, kind.id2), On, radio);
    }

    /** `turn_off`. */
    method TurnOff(radio: Radio) returns (reply: Reply)
      requires kind.Milight?
      modifies this
      ensures var st := MilightWriteSpec(old(St()), TurnOffQuery(kind.id1, kind.id2), Off, radio);
        St() == st.after && reply == st.reply && written == old(written) + AirBytes(st.issued)
    {
      PresetLayouts(kind.id1, kind.id2, 0);
      reply := MilightWrite(TurnOffQuery(kind.id1, kind.id2), Off, radio);
    }

    /** `dim_on`. */
    method DimOn(token: string, radio: Radio) returns (reply: Reply)
      requires kind.Milight?
      modifies this
      ensures var st := MilightWriteSpec(old(St()), DimOnQuery(kind.id1, kind.id2), token, radio);
        St() == st.after && reply == st.reply && written == old(written) + AirBytes(st.issued)
    {
      PresetLayouts(kind.id1, kind.id2, 0);
      reply := MilightWrite(DimOnQuery(kind.id1, kind.id2), token, radio);
    }

    /** `turn_on_and_dim_on`. */
    method TurnOnAndDimOn(token: string, air: Air) returns (reply: Reply)
      requires kind.Milight?
      modifies this
      ensures var st := TurnOnThenSpec(kind.id1, kind.id2, old(St()), Some(DimOnQuery(kind.id1, kind.id2)), token, air);
        St() == st.after && reply == st.reply && written == old(written) + AirBytes(st.issued)
    {
      PresetLayouts(kind.id1, kind.id2, 0);
      reply := TurnOn(air.first);
      if reply != Done {
        return;
      }
      reply := DimOn(token, air.second);
    }

    /** `turn_on_and_set_color`; building the colour command raises for a non-integer token. */
    method TurnOnAndSetColor(token: string, air: Air) returns (reply: Reply)
      requires kind.Milight?
      modifies this
      ensures var st := TurnOnThenSpec(kind.id1, kind.id2, old(St()), ColourQuery(kind.id1, kind.id2, token), token, air);
        St() == st.after && reply == st.reply && written == old(written) + AirBytes(st.issued)
    {
      reply := TurnOn(air.first);
      if reply != Done {
        return;
      }
      match DecimalLiteral(token)
      case None =>
        reply := Crash;
      case Some(c) =>
        PresetLayouts(kind.id1, kind.id2, c);
        reply := MilightWrite(SetColourQuery(kind.id1, kind.id2, c), token, air.second);
    }

    /** `color(token, priority)`: the decision list of either kind. */
    method Color(token: string, requested: int, air: Air) returns (reply: Reply)
      modifies this
      ensures var st := ColorSpec(kind, old(St()), token, requested, air);
        St() == st.after && reply == st.reply && written == old(written) + AirBytes(st.issued)
    {
      if kind.Playbulb? {
        if !(|token| == 1 || |token| == 8 || token == Skip) {
          return Done;
        }
      } else if |token| > 3 {
        return Done;
      }
      if success {
        return Done;
      }
      if token == Skip {
        success := true;
        return Done;
      }
      if priority > requested {
        success := true;
        return Done;
      }
      priority := Adopted(requested);
      if kind.Playbulb? {
        if state == token && token != PlaybulbOff {
          success := true;
          return Done;
        }
        reply := PlaybulbWrite(token, air.first);
      } else if token == Off {
        reply := TurnOff(air.first);
      } else if state == token {
        success := true;
        reply := Done;
      } else if token == On {
        reply := TurnOnAndDimOn(On, air);
      } else {
        reply := TurnOnAndSetColor(token, air);
      }
    }
  }
}

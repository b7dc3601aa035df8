/** The RF remote receiver (RfManager/RfManager.py): rendering of a received
    payload as hex, its classification into press / repeat / release, the
    `last_key` bookkeeping across payloads, and the listener's addresses and
    stop flag. The radio itself is a log of calls. */
module RfDecoder {
  import opened Wrappers

  type byte = x: int | 0 <= x < 256

  /** One lower-case hex digit. */
  function HexDigit(n: int): (d: char)
    requires 0 <= n < 16
    ensures '0' <= d <= '9' || 'a' <= d <= 'f'
    ensures n < 10 <==> '0' <= d <= '9'
  {
    if n < 10 then ('0' as int + n) as char else ('a' as int + n - 10) as char
  }

  /** `f'{b:02x}'`: two lower-case hex digits, the high nibble first. */
  function HexByte(b: byte): (s: string)
    ensures |s| == 2 && s[0] == HexDigit(b / 16) && s[1] == HexDigit(b % 16)
  {
    [HexDigit(b / 16), HexDigit(b % 16)]
  }

  /** `':'.join(f'{i:02x}' for i in payload)`. */
  function RenderHex(p: seq<byte>): (s: string)
    ensures p == [] <==> s == ""
    ensures p != [] ==> |s| == 3 * |p| - 1
  {
    if p == [] then ""
    else if |p| == 1 then HexByte(p[0])
    else HexByte(p[0]) + ":" + RenderHex(p[1..])
  }

  /** Different nibbles give different digits. */
  lemma HexDigitInjective(i: int, j: int)
    requires 0 <= i < 16 && 0 <= j < 16 && HexDigit(i) == HexDigit(j)
    ensures i == j
  {
  }

  lemma HexByteInjective(a: byte, b: byte)
    requires HexByte(a) == HexByte(b)
    ensures a == b
  {
    assert HexByte(a)[0] == HexByte(b)[0] && HexByte(a)[1] == HexByte(b)[1];
    HexDigitInjective(a / 16, b / 16);
    HexDigitInjective(a % 16, b % 16);
  }

  /** Different payloads render differently, so comparing renderings is
      comparing bytes. */
  lemma {:induction false} RenderHexInjective(p: seq<byte>, q: seq<byte>)
    requires RenderHex(p) == RenderHex(q)
    ensures p == q
  {
    if p != [] && q != [] {
      var s := RenderHex(p);
      assert HexByte(p[0]) == s[..2] == HexByte(q[0]);
      HexByteInjective(p[0], q[0]);
      if |p| > 1 && |q| > 1 {
        assert RenderHex(p[1..]) == s[3..] == RenderHex(q[1..]);
        RenderHexInjective(p[1..], q[1..]);
        assert p == [p[0]] + p[1..] && q == [q[0]] + q[1..];
      }
    }
  }

  // The reserved renderings the receive loop compares a payload's rendering
  // against.
  const RepeatHex: string := "00:40:00:28:98"
  const IdleHex: string := "00:40:04:4c:70"
  const SleepHex: string := "00:4f:03:00:00:00:00:00:00:ae"
  const ReleaseHex: string := "00:c3:00:00:00:00:00:00:00:3d"
  const ReleaseAltHex: string := "00:4f:00:04:4c:00:00:00:00:61"
  const WakeHex: string := "08:4f:07:00:00:00:00:00:00:a2"
  const ConfirmHex: string := "00:c1:00:00:00:00:00:00:00:3f"

  /** The repeat frame as bytes. */
  lemma RepeatFrame()
    ensures RenderHex([0x00, 0x40, 0x00, 0x28, 0x98]) == RepeatHex
  {
  }

  /** The idle frame as bytes. */
  lemma IdleFrame()
    ensures RenderHex([0x00, 0x40, 0x04, 0x4c, 0x70]) == IdleHex
  {
  }

  /** How the receive loop treats one payload, one case per branch it logs. */
  datatype Classification =
    | Pressed(key: string)
    | Repeated
    | Released
    | Idle | GoingToSleep | WokeUp | Confirmed
    | UnexpectedShort | Unrecognized | WrongLength

  /** The rendering of the payload names a truthy entry of the known-command
      table. */
  predicate Hit(known: map<string, string>, payload: seq<byte>)
  {
    RenderHex(payload) in known && known[RenderHex(payload)] != ""
  }

  /** The dispatch on length, then on the known-command table, then on the
      sentinels. A truthy table entry wins over every sentinel. */
  function Classify(known: map<string, string>, payload: seq<byte>): (c: Classification)
    ensures c.Pressed? <==> |payload| == 10 && Hit(known, payload)
    ensures c.Pressed? ==> c.key == known[RenderHex(payload)] && c.key != "" && c.key in known.Values
    ensures (c == WrongLength) <==> (|payload| != 5 && |payload| != 10)
    ensures (c.Repeated? || c.Idle? || c.UnexpectedShort?) <==> |payload| == 5
    ensures c == Repeated <==> RenderHex(payload) == RepeatHex
    ensures c == Idle <==> RenderHex(payload) == IdleHex
    ensures c == GoingToSleep <==> RenderHex(payload) == SleepHex && !Hit(known, payload)
    ensures c == Released <==> (RenderHex(payload) == ReleaseHex || RenderHex(payload) == ReleaseAltHex) && !Hit(known, payload)
    ensures c == WokeUp <==> RenderHex(payload) == WakeHex && !Hit(known, payload)
    ensures c == Confirmed <==> RenderHex(payload) == ConfirmHex && !Hit(known, payload)
    ensures c == Unrecognized <==>
              |payload| == 10 && !Hit(known, payload)
              && RenderHex(payload) !in [SleepHex, ReleaseHex, ReleaseAltHex, WakeHex, ConfirmHex]
  {
    var hex := RenderHex(payload);
    if |payload| == 5 then
      if hex == RepeatHex then Repeated
      else if hex == IdleHex then Idle
      else UnexpectedShort
    else if |payload| == 10 then
      if hex in known && known[hex] != "" then Pressed(known[hex])
      else if hex == SleepHex then GoingToSleep
      else if hex == ReleaseHex || hex == ReleaseAltHex then Released
      else if hex == WakeHex then WokeUp
      else if hex == ConfirmHex then Confirmed
      else Unrecognized
    else WrongLength
  }

  /** The registered callbacks, as opaque handles (None: not set). */
  datatype Callbacks = Callbacks(press: Option<nat>, repeat: Option<nat>, release: Option<nat>)

  datatype CallbackKind = PressCallback | RepeatCallback | ReleaseCallback

  /** One callback invocation with its argument. */
  datatype Call = Call(kind: CallbackKind, handler: nat, arg: Option<string>)

  /** The calls one classified payload causes and the `last_key` after it:
      callbacks run only when set, and only a press changes `last_key`. */
  function Effect(cbs: Callbacks, lastKey: Option<string>, c: Classification): (r: (seq<Call>, Option<string>))
    ensures |r.0| <= 1
    ensures r.1 != lastKey ==> c.Pressed? && r.1 == Some(c.key)
    ensures c.Pressed? ==> r.1 == Some(c.key)
    ensures !c.Pressed? ==> r.1 == lastKey
    ensures c.Pressed? ==> (r.0 == [] <==> cbs.press.None?)
    ensures c.Pressed? && cbs.press.Some? ==> r.0 == [Call(PressCallback, cbs.press.value, Some(c.key))]
    ensures c.Repeated? ==> (r.0 == [] <==> cbs.repeat.None?)
    ensures c.Repeated? && cbs.repeat.Some? ==> r.0 == [Call(RepeatCallback, cbs.repeat.value, lastKey)]
    ensures c.Released? ==> (r.0 == [] <==> cbs.release.None?)
    ensures c.Released? && cbs.release.Some? ==> r.0 == [Call(ReleaseCallback, cbs.release.value, lastKey)]
    ensures !(c.Pressed? || c.Repeated? || c.Released?) ==> r == ([], lastKey)
  {
    match c
    case Pressed(key) =>
      (if cbs.press.Some? then [Call(PressCallback, cbs.press.value, Some(key))] else [], Some(key))
    case Repeated =>
      (if cbs.repeat.Some? then [Call(RepeatCallback, cbs.repeat.value, lastKey)] else [], lastKey)
    case Released =>
      (if cbs.release.Some? then [Call(ReleaseCallback, cbs.release.value, lastKey)] else [], lastKey)
    case _ => ([], lastKey)
  }

  /** The classification of each drained payload, in order. */
  function Classifications(known: map<string, string>, payloads: seq<seq<byte>>): (cs: seq<Classification>)
    ensures |cs| == |payloads|
    ensures forall i :: 0 <= i < |payloads| ==> cs[i] == Classify(known, payloads[i])
  {
    seq(|payloads|, i requires 0 <= i < |payloads| => Classify(known, payloads[i]))
  }

  /** The receive loop as a fold over the first `n` classified payloads. */
  function Fold(cbs: Callbacks, lastKey: Option<string>, cs: seq<Classification>, n: nat)
    : (r: (seq<Call>, Option<string>))
    requires n <= |cs|
    decreases n
  {
    if n == 0 then ([], lastKey)
    else
      var prev := Fold(cbs, lastKey, cs, n - 1);
      var step := Effect(cbs, prev.1, cs[n - 1]);
      (prev.0 + step.0, step.1)
  }

  /** `last_key` changes only when a press is recognised: after a fold it is
      either the initial value (no press among the payloads) or the key of
      the last recognised press. */
  lemma {:induction false} FoldLastKey(cbs: Callbacks, lastKey: Option<string>, cs: seq<Classification>, n: nat)
    requires n <= |cs|
    ensures var k := Fold(cbs, lastKey, cs, n).1;
            || (k == lastKey && forall i :: 0 <= i < n ==> !cs[i].Pressed?)
            || (exists i :: 0 <= i < n && cs[i].Pressed? && k == Some(cs[i].key)
                  && forall j :: i < j < n ==> !cs[j].Pressed?)
  {
    if n > 0 {
      FoldLastKey(cbs, lastKey, cs, n - 1);
      var k' := Fold(cbs, lastKey, cs, n - 1).1;
      if cs[n - 1].Pressed? {
        assert Fold(cbs, lastKey, cs, n).1 == Some(cs[n - 1].key);
      } else if exists i :: 0 <= i < n - 1 && cs[i].Pressed? && k' == Some(cs[i].key)
                         && forall j :: i < j < n - 1 ==> !cs[j].Pressed? {
        var i :| 0 <= i < n - 1 && cs[i].Pressed? && k' == Some(cs[i].key)
                 && forall j :: i < j < n - 1 ==> !cs[j].Pressed?;
        assert forall j :: i < j < n ==> !cs[j].Pressed?;
      }
    }
  }

  /** Every call of a fold is one the matching callback was set for, and at
      most one call is made per payload. */
  lemma {:induction false} FoldCallsBounded(cbs: Callbacks, lastKey: Option<string>, cs: seq<Classification>, n: nat)
    requires n <= |cs|
    ensures var calls := Fold(cbs, lastKey, cs, n).0;
            && |calls| <= n
            && forall c :: c in calls ==>
                 match c.kind
                 case PressCallback => cbs.press == Some(c.handler)
                 case RepeatCallback => cbs.repeat == Some(c.handler)
                 case ReleaseCallback => cbs.release == Some(c.handler)
  {
    if n > 0 {
      FoldCallsBounded(cbs, lastKey, cs, n - 1);
    }
  }

  /** The two built-in 5-byte addresses used when none are configured. */
  const DefaultAddresses: seq<seq<byte>> := [[0x08, 0x52, 0x92, 0x58, 0xCB], [0x00, 0x52, 0x92, 0x58, 0xCB]]

  datatype Pipe = P0 | P1

  /** Calls made on the NRF24 radio. */
  datatype RadioCall = PowerUpRx | PowerDown | SetAddressBytes(width: nat) | OpenReadingPipe(pipe: Pipe, address: seq<byte>)

  /** The receiver: callbacks, the known-command table, the listener thread's
      stop flag and the loop's `count` and `last_key`. */
  class RfManager {
    var callbacks: Callbacks
    const knownCommands: map<string, string>
    var started: bool
    var listening: bool
    var doRun: bool
    var count: nat
    var lastKey: Option<string>
    var radio: seq<RadioCall>
    var calls: seq<Call>

    constructor (callbacks: Callbacks, knownCommands: map<string, string>)
      ensures this.callbacks == callbacks && this.knownCommands == knownCommands
      ensures !started && !listening && radio == [] && calls == []
    {
      this.callbacks := callbacks;
      this.knownCommands := knownCommands;
      started, listening, doRun := false, false, false;
      count, lastKey := 0, None;
      radio, calls := [], [];
    }

    method SetCallback(handler: Option<nat>)
      modifies this`callbacks
      ensures callbacks == old(callbacks).(press := handler)
    {
      callbacks := callbacks.(press := handler);
    }

    method SetRepeatCallback(handler: Option<nat>)
      modifies this`callbacks
      ensures callbacks == old(callbacks).(repeat := handler)
    {
      callbacks := callbacks.(repeat := handler);
    }

    method SetReleaseCallback(handler: Option<nat>)
      modifies this`callbacks
      ensures callbacks == old(callbacks).(release := handler)
    {
      callbacks := callbacks.(release := handler);
    }

    /** `start_listener` and the set-up part of `_start_listening`: a missing
        address list defaults to the built-in pair; the address width is that
        of the first address; pipes P0 and P1 listen on the first two. With
        fewer than two addresses the indexing fails before the loop's
        exception handler, so the listener thread ends and nothing is
        received. */
    method StartListener(addresses: Option<seq<seq<byte>>>)
      modifies this`started, this`listening, this`doRun, this`count, this`lastKey, this`radio
      ensures var a := if addresses.None? then DefaultAddresses else addresses.value;
              && started && doRun && count == 0 && lastKey == None
              && listening == (|a| >= 2)
              && radio == old(radio) + [PowerUpRx]
                   + (if |a| >= 1 then [SetAddressBytes(|a[0]|), OpenReadingPipe(P0, a[0])] else [])
                   + (if |a| >= 2 then [OpenReadingPipe(P1, a[1])] else [])
    {
      var a := if addresses.None? then DefaultAddresses else addresses.value;
      radio := radio + [PowerUpRx];
      started, doRun, count, lastKey := true, true, 0, None;
      listening := false;
      if |a| == 0 {
        return;
      }
      radio := radio + [SetAddressBytes(|a[0]|), OpenReadingPipe(P0, a[0])];
      if |a| == 1 {
        return;
      }
      radio := radio + [OpenReadingPipe(P1, a[1])];
      listening := true;
    }

    /** `stop_listener`: clears the stop flag and powers the radio down. */
    method StopListener()
      requires started
      modifies this`doRun, this`radio
      ensures !doRun && radio == old(radio) + [PowerDown]
    {
      doRun := false;
      radio := radio + [PowerDown];
    }

    /** The body of the receive loop for one classified payload. */
    method Receive(c: Classification)
      modifies this`count, this`lastKey, this`calls
      ensures var step := Effect(callbacks, old(lastKey), c);
              count == old(count) + 1 && calls == old(calls) + step.0 && lastKey == step.1
    {
      count := count + 1;
      match c
      case Pressed(key) =>
        if callbacks.press.Some? {
          calls := calls + [Call(PressCallback, callbacks.press.value, Some(key))];
        }
        lastKey := Some(key);
      case Repeated =>
        if callbacks.repeat.Some? {
          calls := calls + [Call(RepeatCallback, callbacks.repeat.value, lastKey)];
        }
      case Released =>
        if callbacks.release.Some? {
          calls := calls + [Call(ReleaseCallback, callbacks.release.value, lastKey)];
        }
      case _ =>
    }

    /** One round of the receive loop: while the stop flag is set, drain every
        ready payload in order; once it is cleared nothing is processed. */
    method Poll(payloads: seq<seq<byte>>)
      modifies this`count, this`lastKey, this`calls
      ensures var r := Fold(callbacks, old(lastKey), Classifications(knownCommands, payloads), |payloads|);
              if doRun && listening then
                count == old(count) + |payloads| && lastKey == r.1 && calls == old(calls) + r.0
              else
                count == old(count) && lastKey == old(lastKey) && calls == old(calls)
    {
      if !(doRun && listening) {
        return;
      }
      var cs := Classifications(knownCommands, payloads);
      Drain(cs);
    }

    /** The receive loop over payloads already classified. */
    method Drain(cs: seq<Classification>)
      modifies this`count, this`lastKey, this`calls
      ensures var r := Fold(callbacks, old(lastKey), cs, |cs|);
              count == old(count) + |cs| && lastKey == r.1 && calls == old(calls) + r.0
    {
      ghost var calls0, key0 := calls, lastKey;
      var i := 0;
      while i < |cs|
        invariant 0 <= i <= |cs|
        invariant count == old(count) + i
        invariant calls == calls0 + Fold(callbacks, key0, cs, i).0
        invariant lastKey == Fold(callbacks, key0, cs, i).1
      {
        ghost var before := Fold(callbacks, key0, cs, i);
        Receive(cs[i]);
        assert Fold(callbacks, key0, cs, i + 1) == (before.0 + Effect(callbacks, before.1, cs[i]).0, Effect(callbacks, before.1, cs[i]).1);
        i := i + 1;
      }
    }
  }
}

/** The infrared transceiver (IrManager/IrManager.py): building a 38 kHz
    carrier waveform, chaining mark and space waves into a transmitted code,
    repeating a send until stopped, and, on the recording side, the edge
    capture, the burst normalisation and the two-press confirmation. The GPIO
    daemon (pigpio) is modelled as a small class holding its wave table and a
    log of what it was asked to transmit. */
module IrCodec {
  import opened Wrappers

  // ---------------------------------------------------------------------
  // Rounding as Python's `round` does it (halves go to the even neighbour).

  /** `round(n / d)` for a positive integer `d`, computed exactly. */
  function RoundDiv(n: int, d: int): int
    requires d > 0
  {
    var q := n / d;
    var m := n % d;
    if 2 * m < d then q
    else if 2 * m > d then q + 1
    else if q % 2 == 0 then q
    else q + 1
  }

  /** RoundDiv is the nearest integer to `n / d`, and the even one of two
      equally near. */
  lemma RoundDivNearest(n: int, d: int)
    requires d > 0
    ensures var r := RoundDiv(n, d);
            && -d <= 2 * n - 2 * d * r <= d
            && (2 * n - 2 * d * r == d || 2 * n - 2 * d * r == -d ==> r % 2 == 0)
  {
    var q := n / d;
    assert n == d * q + n % d;
    assert d * (q + 1) == d * q + d;
  }

  /** `round(x)` for a real `x`. */
  function RoundReal(x: real): (r: int)
    ensures x - 0.5 <= r as real <= x + 0.5
    ensures r as real == x - 0.5 || r as real == x + 0.5 ==> r % 2 == 0
  {
    var f := x.Floor;
    var frac := x - f as real;
    if frac < 0.5 then f
    else if frac > 0.5 then f + 1
    else if f % 2 == 0 then f
    else f + 1
  }

  // ---------------------------------------------------------------------
  // The carrier.

  const TxGpio: nat := 18
  /** `1 << TXGPIO`, the GPIO mask of the transmitter pin. */
  const TxMask: nat := 262144
  /** The carrier frequency in kHz; one cycle lasts 1000/38 microseconds. */
  const Freq: nat := 38
  /** `round(cycle * 0.5)`: the on-time of every cycle, 13 microseconds. */
  const OnTime: int := 13

  /** One pigpio pulse: the GPIOs switched on, those switched off, and the
      delay in microseconds before the next pulse. */
  datatype Pulse = Pulse(on: int, off: int, delay: int)

  /** `int(round(micros / cycle))`, the number of carrier cycles in a mark. */
  function Cycles(micros: int): int
  {
    RoundDiv(micros * Freq, 1000)
  }

  /** `range(cycles)` is empty for a negative count. */
  function CycleCount(micros: int): nat
  {
    var c := Cycles(micros);
    if c < 0 then 0 else c
  }

  /** The end of cycle `c`: `int(round((c + 1) * cycle))`. */
  function CycleEnd(c: nat): int
  {
    RoundDiv((c + 1) * 1000, Freq)
  }

  /** Where cycle `c` starts: 0 for the first, the previous end otherwise. */
  function CycleStart(c: nat): int
  {
    if c == 0 then 0 else CycleEnd(c - 1)
  }

  /** `n` carrier cycles: per cycle an on pulse of OnTime and an off pulse
      lasting to the end of the cycle. */
  function CarrierCycles(n: nat): (wf: seq<Pulse>)
    ensures |wf| == 2 * n
  {
    seq(2 * n, k requires 0 <= k < 2 * n =>
      if k % 2 == 0 then Pulse(TxMask, 0, OnTime)
      else Pulse(0, TxMask, CycleEnd(k / 2) - CycleStart(k / 2) - OnTime))
  }

  /** The carrier for a mark of `micros` microseconds. */
  function CarrierWave(micros: int): (wf: seq<Pulse>)
    ensures |wf| == 2 * CycleCount(micros)
  {
    CarrierCycles(CycleCount(micros))
  }

  /** The total delay of the first `m` pulses. */
  function DelayUpTo(ps: seq<Pulse>, m: nat): int
    requires m <= |ps|
  {
    if m == 0 then 0 else DelayUpTo(ps, m - 1) + ps[m - 1].delay
  }

  /** The total of the pulse delays. */
  function Duration(ps: seq<Pulse>): int
  {
    DelayUpTo(ps, |ps|)
  }

  lemma Halves(c: nat)
    ensures (2 * c) % 2 == 0 && (2 * c) / 2 == c
    ensures (2 * c + 1) % 2 == 1 && (2 * c + 1) / 2 == c
  {
  }

  /** The first `c` of `n` cycles last exactly to the end of cycle `c - 1`:
      the off pulses absorb the rounding of each cycle. */
  lemma {:induction false} CyclesPrefixDuration(n: nat, c: nat)
    requires c <= n
    ensures DelayUpTo(CarrierCycles(n), 2 * c) == CycleStart(c)
  {
    if c > 0 {
      var wf := CarrierCycles(n);
      CyclesPrefixDuration(n, c - 1);
      Halves(c - 1);
      assert 2 * c - 1 == 2 * (c - 1) + 1;
      assert wf[2 * (c - 1)].delay == OnTime;
      assert wf[2 * (c - 1) + 1].delay == CycleEnd(c - 1) - CycleStart(c - 1) - OnTime;
    }
  }

  /** The whole carrier lasts until the end of its last cycle. */
  lemma CarrierDuration(micros: int)
    ensures Duration(CarrierWave(micros)) == CycleStart(CycleCount(micros))
  {
    var n := CycleCount(micros);
    CyclesPrefixDuration(n, n);
  }

  /** `carrier(TXGPIO, FREQ, micros)`: the loop keeps `sofar` at the start of
      the next cycle, so each off pulse ends its cycle on the rounded target. */
  method Carrier(micros: int) returns (wf: seq<Pulse>)
    ensures wf == CarrierWave(micros)
  {
    var cycles := CycleCount(micros);
    var on := OnTime;
    var sofar := 0;
    wf := [];
    for c := 0 to cycles
      invariant |wf| == 2 * c
      invariant sofar == CycleStart(c)
      invariant forall k :: 0 <= k < |wf| ==> wf[k] == CarrierCycles(cycles)[k]
    {
      Halves(c);
      var target := CycleEnd(c);
      sofar := sofar + on;
      var off := target - sofar;
      sofar := sofar + off;
      wf := wf + [Pulse(TxMask, 0, on), Pulse(0, TxMask, off)];
    }
  }

  // ---------------------------------------------------------------------
  // The marks and spaces of a code.

  /** The entries of `code` at even (parity 0) or odd (parity 1) indices. */
  function EveryOther(code: seq<int>, parity: nat): (s: seq<int>)
    requires parity < 2
    ensures |s| == (|code| + 1 - parity) / 2
    ensures forall k :: 0 <= k < |s| ==> 2 * k + parity < |code| && s[k] == code[2 * k + parity]
  {
    seq((|code| + 1 - parity) / 2, k requires 0 <= k < (|code| + 1 - parity) / 2 => code[2 * k + parity])
  }

  /** The distinct values of `s` in order of first occurrence, as the keys of
      a dict filled along `s`. */
  function Dedup(s: seq<int>): seq<int>
  {
    if s == [] then []
    else
      var d := Dedup(s[..|s| - 1]);
      if s[|s| - 1] in d then d else d + [s[|s| - 1]]
  }

  predicate NoDup(s: seq<int>)
  {
    forall i, j :: 0 <= i < j < |s| ==> s[i] != s[j]
  }

  /** Each value of `s` appears exactly once among the keys. */
  lemma {:induction false} DedupSpec(s: seq<int>)
    ensures NoDup(Dedup(s))
    ensures forall x :: x in Dedup(s) <==> x in s
  {
    if s != [] {
      DedupSpec(s[..|s| - 1]);
      assert s == s[..|s| - 1] + [s[|s| - 1]];
    }
  }

  /** The wave kept for a mark (a carrier burst) or a space (a single pulse
      with no GPIO change). */
  function KeyWave(isMark: bool, v: int): seq<Pulse>
  {
    if isMark then CarrierWave(v) else [Pulse(0, 0, v)]
  }

  /** What a code looks like on air: entry `i` is the mark wave of `code[i]`
      at even `i` and the space wave of `code[i]` at odd `i`. */
  function Signal(code: seq<int>): (s: seq<seq<Pulse>>)
    ensures |s| == |code|
  {
    seq(|code|, i requires 0 <= i < |code| => KeyWave(i % 2 == 0, code[i]))
  }

  /** Every entry of a code is among the keys of its parity. */
  lemma EntryHasKey(code: seq<int>, i: nat)
    requires i < |code|
    ensures code[i] in Dedup(EveryOther(code, i % 2))
  {
    var picks := EveryOther(code, i % 2);
    DedupSpec(picks);
    assert picks[i / 2] == code[i];
  }

  /** The waveforms a chain of wave ids stands for. */
  function Resolve(waves: map<nat, seq<Pulse>>, ids: seq<nat>): (s: seq<seq<Pulse>>)
    requires forall i :: 0 <= i < |ids| ==> ids[i] in waves
    ensures |s| == |ids| && forall i :: 0 <= i < |ids| ==> s[i] == waves[ids[i]]
  {
    seq(|ids|, i requires 0 <= i < |ids| => waves[ids[i]])
  }

  /** `ids` numbers the first `n` keys consecutively from `base`. */
  ghost predicate Numbered(keys: seq<int>, ids: map<int, nat>, base: nat, n: nat)
    requires n <= |keys|
  {
    && (forall x :: x in ids <==> x in keys[..n])
    && (forall t :: 0 <= t < n ==> keys[t] in ids && ids[keys[t]] == base + t)
  }

  lemma NumberedStep(keys: seq<int>, ids: map<int, nat>, base: nat, n: nat)
    requires n < |keys| && NoDup(keys) && Numbered(keys, ids, base, n)
    ensures Numbered(keys, ids[keys[n] := base + n], base, n + 1)
  {
    assert keys[..n + 1] == keys[..n] + [keys[n]];
  }

  lemma ExtendsStep(waves: map<nat, seq<Pulse>>, before: map<nat, seq<Pulse>>, lo: nat, hi: nat, wf: seq<Pulse>)
    requires Extends(waves, before, lo, hi) && hi !in before && lo <= hi
    ensures Extends(waves[hi := wf], before, lo, hi + 1)
  {
  }

  lemma StoredStep(waves: map<nat, seq<Pulse>>, ids: map<int, nat>, isMark: bool, key: int, wid: nat)
    requires Stored(waves, ids, isMark) && wid !in waves
    ensures Stored(waves[wid := KeyWave(isMark, key)], ids[key := wid], isMark)
  {
  }

  /** Each id of `ids` names, in `waves`, the mark or space wave of its key. */
  ghost predicate Stored(waves: map<nat, seq<Pulse>>, ids: map<int, nat>, isMark: bool)
  {
    forall x :: x in ids ==> ids[x] in waves && waves[ids[x]] == KeyWave(isMark, x)
  }

  /** `waves` is `before` plus new entries with ids `lo .. hi - 1`. */
  ghost predicate Extends(waves: map<nat, seq<Pulse>>, before: map<nat, seq<Pulse>>, lo: nat, hi: nat)
  {
    && (forall w :: w in waves <==> w in before || lo <= w < hi)
    && (forall w :: w in before ==> waves[w] == before[w])
  }

  /** `waves` is `before` without the ids `lo .. hi - 1`. */
  ghost predicate Removes(waves: map<nat, seq<Pulse>>, before: map<nat, seq<Pulse>>, lo: nat, hi: nat)
  {
    && (forall w :: w in waves <==> w in before && !(lo <= w < hi))
    && (forall w :: w in waves ==> waves[w] == before[w])
  }

  lemma StoredAt(waves: map<nat, seq<Pulse>>, ids: map<int, nat>, isMark: bool, x: int)
    requires Stored(waves, ids, isMark) && x in ids
    ensures ids[x] in waves && waves[ids[x]] == KeyWave(isMark, x)
  {
  }

  lemma StoredKept(waves: map<nat, seq<Pulse>>, before: map<nat, seq<Pulse>>, ids: map<int, nat>, isMark: bool, lo: nat, hi: nat)
    requires Stored(before, ids, isMark) && Extends(waves, before, lo, hi)
    ensures Stored(waves, ids, isMark)
  {
  }

  /** Creating waves and deleting them again restores the table. */
  lemma CreateThenDelete(w0: map<nat, seq<Pulse>>, w2: map<nat, seq<Pulse>>, w3: map<nat, seq<Pulse>>,
                         w4: map<nat, seq<Pulse>>, a: nat, b: nat, c: nat)
    requires forall w :: w in w0 ==> w < a
    requires a <= b <= c
    requires Extends(w2, w0, a, c) && Removes(w3, w2, a, b) && Removes(w4, w3, b, c)
    ensures w4 == w0
  {
    assert w4.Keys == w0.Keys;
  }

  /** A chain of mark and space ids resolves to the signal of the code. */
  lemma ChainIsSignal(code: seq<int>, marks: map<int, nat>, spaces: map<int, nat>,
                      waves: map<nat, seq<Pulse>>, chain: seq<nat>)
    requires Stored(waves, marks, true) && Stored(waves, spaces, false)
    requires |chain| == |code|
    requires forall i :: 0 <= i < |code| ==> code[i] in (if i % 2 == 1 then spaces else marks)
    requires forall i :: 0 <= i < |code| ==> chain[i] == (if i % 2 == 1 then spaces else marks)[code[i]]
    ensures forall i :: 0 <= i < |chain| ==> chain[i] in waves
    ensures Resolve(waves, chain) == Signal(code)
  {
    forall i | 0 <= i < |chain|
      ensures chain[i] in waves && waves[chain[i]] == KeyWave(i % 2 == 0, code[i])
    {
      if i % 2 == 1 {
        assert code[i] in spaces && chain[i] == spaces[code[i]];
        StoredAt(waves, spaces, false, code[i]);
      } else {
        assert code[i] in marks && chain[i] == marks[code[i]];
        StoredAt(waves, marks, true, code[i]);
      }
    }
  }

  // ---------------------------------------------------------------------
  // The pigpio daemon.

  datatype PinMode = Unset | Input | Output

  /** The pigpio wave table: waves under construction and created waves by
      id, and every chain it was asked to transmit, resolved to waveforms.
      Wave ids are handed out in increasing order. */
  class Pigpio {
    var txMode: PinMode
    var pending: seq<Pulse>
    var waves: map<nat, seq<Pulse>>
    var nextWid: nat
    var sent: seq<seq<seq<Pulse>>>

    ghost predicate Valid()
      reads this
    {
      forall w :: w in waves ==> w < nextWid
    }

    constructor ()
      ensures Valid() && waves == map[] && pending == [] && sent == [] && txMode == Unset
    {
      txMode, pending, waves, nextWid, sent := Unset, [], map[], 0, [];
    }

    /** `set_mode(TXGPIO, OUTPUT)`. */
    method SetTxOutput()
      modifies this`txMode
      ensures txMode == Output
    {
      txMode := Output;
    }

    /** `wave_add_new()`: start a new wave. */
    method WaveAddNew()
      modifies this`pending
      ensures pending == []
    {
      pending := [];
    }

    /** `wave_add_generic(pulses)`. */
    method WaveAddGeneric(pulses: seq<Pulse>)
      modifies this`pending
      ensures pending == old(pending) + pulses
    {
      pending := pending + pulses;
    }

    /** `wave_create()`: the pending pulses become a wave with a fresh id. */
    method WaveCreate() returns (wid: nat)
      requires Valid()
      modifies this`pending, this`waves, this`nextWid
      ensures Valid()
      ensures wid == old(nextWid) && wid !in old(waves) && nextWid == old(nextWid) + 1
      ensures waves == old(waves)[wid := old(pending)] && pending == []
    {
      wid := nextWid;
      waves := waves[wid := pending];
      pending := [];
      nextWid := nextWid + 1;
    }

    /** `wave_chain(ids)`: transmit the waves in order. */
    method WaveChain(ids: seq<nat>)
      requires forall i :: 0 <= i < |ids| ==> ids[i] in waves
      modifies this`sent
      ensures sent == old(sent) + [Resolve(waves, ids)]
    {
      sent := sent + [Resolve(waves, ids)];
    }

    /** `wave_delete(wid)`. */
    method WaveDelete(wid: nat)
      requires Valid()
      modifies this`waves
      ensures Valid() && waves == old(waves) - {wid}
    {
      waves := waves - {wid};
    }
  }

  // ---------------------------------------------------------------------
  // Sending.

  class IrManager {
    const pi: Pigpio
    var repeating: bool

    constructor ()
      ensures fresh(pi) && pi.Valid() && pi.waves == map[] && pi.sent == [] && !repeating
    {
      pi := new Pigpio();
      repeating := false;
    }

    /** The dict of marks (parity 0) or spaces (parity 1): one key per
        distinct value, in order of first occurrence. */
    static method CollectKeys(code: seq<int>, parity: nat) returns (keys: seq<int>)
      requires parity < 2
      ensures keys == Dedup(EveryOther(code, parity))
    {
      ghost var picks := EveryOther(code, parity);
      keys := [];
      var i := parity;
      ghost var k := 0;
      while i < |code|
        invariant i == 2 * k + parity && 0 <= k <= |picks|
        invariant k < |picks| <== i < |code|
        invariant keys == Dedup(picks[..k])
      {
        assert picks[..k + 1][..k] == picks[..k] && picks[k] == code[i];
        if code[i] !in keys {
          keys := keys + [code[i]];
        }
        i, k := i + 2, k + 1;
      }
      assert picks[..k] == picks;
    }

    /** One wave per key, created in key order with consecutive ids. */
    method CreateWaves(keys: seq<int>, isMark: bool) returns (ids: map<int, nat>)
      requires pi.Valid() && pi.pending == [] && NoDup(keys)
      modifies pi`pending, pi`waves, pi`nextWid
      ensures pi.Valid() && pi.pending == []
      ensures pi.nextWid == old(pi.nextWid) + |keys|
      ensures Numbered(keys, ids, old(pi.nextWid), |keys|)
      ensures Extends(pi.waves, old(pi.waves), old(pi.nextWid), pi.nextWid)
      ensures Stored(pi.waves, ids, isMark)
    {
      ids := map[];
      ghost var w0 := pi.nextWid;
      for t := 0 to |keys|
        invariant pi.Valid() && pi.pending == [] && pi.nextWid == w0 + t
        invariant Numbered(keys, ids, w0, t)
        invariant Extends(pi.waves, old(pi.waves), w0, pi.nextWid)
        invariant Stored(pi.waves, ids, isMark)
      {
        ghost var waves1 := pi.waves;
        var wf;
        if isMark {
          wf := Carrier(keys[t]);
        } else {
          wf := [Pulse(0, 0, keys[t])];
        }
        pi.WaveAddGeneric(wf);
        var wid := pi.WaveCreate();
        NumberedStep(keys, ids, w0, t);
        ExtendsStep(waves1, old(pi.waves), w0, wid, wf);
        StoredStep(waves1, ids, isMark, keys[t], wid);
        ids := ids[keys[t] := wid];
      }
    }

    /** Delete the waves `base .. base + n - 1`. */
    method DeleteWaves(keys: seq<int>, ids: map<int, nat>, ghost base: nat)
      requires pi.Valid()
      requires Numbered(keys, ids, base, |keys|)
      modifies pi`waves
      ensures pi.Valid()
      ensures Removes(pi.waves, old(pi.waves), base, base + |keys|)
    {
      for t := 0 to |keys|
        invariant pi.Valid()
        invariant forall w :: w in pi.waves <==> w in old(pi.waves) && !(base <= w < base + t)
        invariant forall w :: w in pi.waves ==> pi.waves[w] == old(pi.waves)[w]
      {
        pi.WaveDelete(ids[keys[t]]);
      }
    }

    /** The `wave` list: the space wave id of each odd entry and the mark
        wave id of each even one. */
    static method BuildChain(code: seq<int>, marks: map<int, nat>, spaces: map<int, nat>) returns (chain: seq<nat>)
      requires forall i :: 0 <= i < |code| ==> code[i] in (if i % 2 == 1 then spaces else marks)
      ensures |chain| == |code|
      ensures forall i :: 0 <= i < |code| ==> chain[i] == (if i % 2 == 1 then spaces else marks)[code[i]]
    {
      var wave := new nat[|code|];
      for i := 0 to |code|
        invariant forall j :: 0 <= j < i ==> wave[j] == (if j % 2 == 1 then spaces else marks)[code[j]]
      {
        if i % 2 == 1 {
          wave[i] := spaces[code[i]];
        } else {
          wave[i] := marks[code[i]];
        }
      }
      chain := wave[..];
    }

    /** The `marks` and `spaces` dicts of `send_command`, with their waves
        created: marks first, then spaces, each in order of first occurrence. */
    method CreateTables(code: seq<int>)
      returns (markKeys: seq<int>, marks: map<int, nat>, spaceKeys: seq<int>, spaces: map<int, nat>)
      requires pi.Valid() && pi.pending == []
      modifies pi`pending, pi`waves, pi`nextWid
      ensures pi.Valid() && pi.pending == []
      ensures markKeys == Dedup(EveryOther(code, 0)) && spaceKeys == Dedup(EveryOther(code, 1))
      ensures Numbered(markKeys, marks, old(pi.nextWid), |markKeys|)
      ensures Numbered(spaceKeys, spaces, old(pi.nextWid) + |markKeys|, |spaceKeys|)
      ensures pi.nextWid == old(pi.nextWid) + |markKeys| + |spaceKeys|
      ensures Extends(pi.waves, old(pi.waves), old(pi.nextWid), pi.nextWid)
      ensures Stored(pi.waves, marks, true) && Stored(pi.waves, spaces, false)
      ensures forall i :: 0 <= i < |code| ==> code[i] in (if i % 2 == 1 then spaces else marks)
    {
      markKeys := CollectKeys(code, 0);
      DedupSpec(EveryOther(code, 0));
      marks := CreateWaves(markKeys, true);
      ghost var waves1 := pi.waves;
      spaceKeys := CollectKeys(code, 1);
      DedupSpec(EveryOther(code, 1));
      spaces := CreateWaves(spaceKeys, false);
      StoredKept(pi.waves, waves1, marks, true, old(pi.nextWid) + |markKeys|, pi.nextWid);
      forall i | 0 <= i < |code|
        ensures code[i] in (if i % 2 == 1 then spaces else marks)
      {
        EntryHasKey(code, i);
      }
    }

    /** Chain the mark and space waves of each entry and transmit them. */
    method Transmit(code: seq<int>, marks: map<int, nat>, spaces: map<int, nat>)
      requires Stored(pi.waves, marks, true) && Stored(pi.waves, spaces, false)
      requires forall i :: 0 <= i < |code| ==> code[i] in (if i % 2 == 1 then spaces else marks)
      modifies pi`sent
      ensures pi.sent == old(pi.sent) + [Signal(code)]
    {
      var wave := BuildChain(code, marks, spaces);
      ChainIsSignal(code, marks, spaces, pi.waves, wave);
      pi.WaveChain(wave);
    }

    /** Delete every wave of both tables, restoring the table `before`. */
    method DeleteTables(markKeys: seq<int>, marks: map<int, nat>, spaceKeys: seq<int>, spaces: map<int, nat>,
                        ghost base: nat, ghost before: map<nat, seq<Pulse>>)
      requires pi.Valid() && forall w :: w in before ==> w < base
      requires Numbered(markKeys, marks, base, |markKeys|)
      requires Numbered(spaceKeys, spaces, base + |markKeys|, |spaceKeys|)
      requires Extends(pi.waves, before, base, base + |markKeys| + |spaceKeys|)
      modifies pi`waves
      ensures pi.Valid() && pi.waves == before
    {
      ghost var waves2 := pi.waves;
      DeleteWaves(markKeys, marks, base);
      ghost var waves3 := pi.waves;
      DeleteWaves(spaceKeys, spaces, base + |markKeys|);
      CreateThenDelete(before, waves2, waves3, pi.waves, base, base + |markKeys|, base + |markKeys| + |spaceKeys|);
    }

    /** `send_command(code)`: one wave per distinct mark and per distinct
        space, a chain that picks the mark or space wave of each entry, and
        every created wave deleted again afterwards. */
    method SendCommand(code: seq<int>)
      requires pi.Valid()
      modifies pi
      ensures pi.Valid() && pi.txMode == Output
      ensures pi.sent == old(pi.sent) + [Signal(code)]
      ensures pi.waves == old(pi.waves)
      ensures pi.nextWid == old(pi.nextWid) + |Dedup(EveryOther(code, 0))| + |Dedup(EveryOther(code, 1))|
    {
      pi.SetTxOutput();
      pi.WaveAddNew();
      ghost var w0 := pi.nextWid;
      var markKeys, marks, spaceKeys, spaces := CreateTables(code);
      Transmit(code, marks, spaces);
      DeleteTables(markKeys, marks, spaceKeys, spaces, w0, old(pi.waves));
    }

    /** `send_and_repeat(code)`: send until the flag is cleared. The
        concurrent `stop_repeating` is modelled as arriving during the pause
        after send number `stopAfter`. */
    method SendAndRepeat(code: seq<int>, stopAfter: nat)
      requires pi.Valid() && stopAfter >= 1
      modifies this`repeating, pi
      ensures pi.Valid() && !repeating
      ensures |pi.sent| == |old(pi.sent)| + stopAfter
      ensures pi.sent[..|old(pi.sent)|] == old(pi.sent)
      ensures forall i :: |old(pi.sent)| <= i < |pi.sent| ==> pi.sent[i] == Signal(code)
      ensures pi.waves == old(pi.waves)
    {
      repeating := true;
      var n := 0;
      while repeating
        invariant pi.Valid() && 0 <= n <= stopAfter && (repeating <==> n < stopAfter)
        invariant |pi.sent| == |old(pi.sent)| + n
        invariant pi.sent[..|old(pi.sent)|] == old(pi.sent)
        invariant forall i :: |old(pi.sent)| <= i < |pi.sent| ==> pi.sent[i] == Signal(code)
        invariant pi.waves == old(pi.waves)
        decreases stopAfter - n
      {
        SendCommand(code);
        n := n + 1;
        if n == stopAfter {
          StopRepeating();
        }
      }
    }

    /** `stop_repeating()`. */
    method StopRepeating()
      modifies this`repeating
      ensures !repeating
    {
      repeating := false;
    }
  }

  // ---------------------------------------------------------------------
  // Normalising a recorded burst.

  /** `c[j] * 0.8 < v < c[j] * 1.2`. */
  predicate Similar(cj: real, v: real)
  {
    cj * 0.8 < v < cj * 1.2
  }

  /** Whether entry `j` joins the group led by `i`: a later entry of the same
      parity, not yet processed, similar to the leader's value. */
  predicate Joins(c: seq<real>, p: seq<bool>, i: nat, j: nat)
    requires |p| == |c| && i < |c| && j < |c|
  {
    i < j && (j - i) % 2 == 0 && !p[j] && Similar(c[j], c[i])
  }

  /** The sum and the number of the group members among `j, j + 2, ...`. */
  function Gather(c: seq<real>, p: seq<bool>, i: nat, j: nat): (r: (real, nat))
    requires |p| == |c| && i < |c|
    decreases |c| - j
  {
    if j >= |c| then (0.0, 0)
    else
      var rest := Gather(c, p, i, j + 2);
      if !p[j] && Similar(c[j], c[i]) then (c[j] + rest.0, rest.1 + 1) else rest
  }

  /** The mean of the group led by `i`, the leader included. */
  function GroupMean(c: seq<real>, p: seq<bool>, i: nat): real
    requires |p| == |c| && i < |c|
  {
    var g := Gather(c, p, i, i + 2);
    (c[i] + g.0) / (1 + g.1) as real
  }

  /** The values after leader `i` is handled: an unprocessed leader and its
      group all take the group mean. */
  function StepValues(c: seq<real>, p: seq<bool>, i: nat): (r: seq<real>)
    requires |p| == |c| && i < |c|
    ensures |r| == |c|
  {
    if p[i] then c
    else seq(|c|, j requires 0 <= j < |c| => if j == i || Joins(c, p, i, j) then GroupMean(c, p, i) else c[j])
  }

  /** The processed flags after leader `i` is handled: its group is marked. */
  function StepFlags(c: seq<real>, p: seq<bool>, i: nat): (r: seq<bool>)
    requires |p| == |c| && i < |c|
    ensures |r| == |p|
  {
    if p[i] then p
    else seq(|p|, j requires 0 <= j < |p| => p[j] || Joins(c, p, i, j))
  }

  /** The outer loop of `normalise` from leader `i` on. */
  function Run(c: seq<real>, p: seq<bool>, i: nat): (r: (seq<real>, seq<bool>))
    requires |p| == |c|
    ensures |r.0| == |c| && |r.1| == |c|
    decreases |c| - i
  {
    if i >= |c| then (c, p)
    else Run(StepValues(c, p, i), StepFlags(c, p, i), i + 1)
  }

  /** The burst after `normalise`, starting with nothing processed. */
  function Normalised(c: seq<real>): (r: seq<real>)
    ensures |r| == |c|
  {
    Run(c, seq(|c|, _ => false), 0).0
  }

  /** A leader step changes only the leader and its group, gives all of them
      the group mean, and marks exactly the group as processed. */
  lemma StepGroups(c: seq<real>, p: seq<bool>, i: nat)
    requires |p| == |c| && i < |c| && !p[i]
    ensures forall j :: 0 <= j < |c| && StepValues(c, p, i)[j] != c[j] ==> j == i || Joins(c, p, i, j)
    ensures forall j :: 0 <= j < |c| && (j == i || Joins(c, p, i, j)) ==> StepValues(c, p, i)[j] == GroupMean(c, p, i)
    ensures forall j :: 0 <= j < |c| ==> (StepFlags(c, p, i)[j] <==> p[j] || Joins(c, p, i, j))
  {
  }

  /** Entries before the current leader, and entries already processed, are
      never changed again. */
  lemma {:induction false} RunKeeps(c: seq<real>, p: seq<bool>, i: nat, k: nat)
    requires |p| == |c| && k < |c| && (k < i || p[k])
    ensures Run(c, p, i).0[k] == c[k]
    decreases |c| - i
  {
    if i < |c| {
      var c', p' := StepValues(c, p, i), StepFlags(c, p, i);
      assert c'[k] == c[k];
      assert k < i + 1 || p'[k];
      RunKeeps(c', p', i + 1, k);
    }
  }

  /** The first inner loop of `normalise`: the mean of the group led by `i`. */
  method GroupAverage(c: array<real>, p: array<bool>, i: nat) returns (newv: real)
    requires p.Length == c.Length && i < c.Length
    ensures newv == GroupMean(c[..], p[..], i)
  {
    var v := c[i];
    var tot := v;
    var similar := 1.0;
    var j := i + 2;
    while j < c.Length
      invariant j >= i + 2
      invariant tot + Gather(c[..], p[..], i, j).0 == v + Gather(c[..], p[..], i, i + 2).0
      invariant similar + Gather(c[..], p[..], i, j).1 as real == 1.0 + Gather(c[..], p[..], i, i + 2).1 as real
      decreases c.Length - j
    {
      if !p[j] {
        if c[j] * 0.8 < v < c[j] * 1.2 {
          tot := tot + c[j];
          similar := similar + 1.0;
        }
      }
      j := j + 2;
    }
    newv := tot / similar;
  }

  /** The second inner loop of `normalise`: the leader and its group take
      the mean and the group is marked processed. */
  method SetGroup(c: array<real>, p: array<bool>, i: nat, newv: real)
    requires p.Length == c.Length && i < c.Length && !p[i]
    requires newv == GroupMean(c[..], p[..], i)
    modifies c, p
    ensures c[..] == StepValues(old(c[..]), old(p[..]), i)
    ensures p[..] == StepFlags(old(c[..]), old(p[..]), i)
  {
    ghost var cb, pb := c[..], p[..];
    var v := c[i];
    c[i] := newv;
    var j := i + 2;
    while j < c.Length
      invariant j >= i + 2 && (j - i) % 2 == 0
      invariant forall k :: 0 <= k < c.Length ==>
                  c[k] == (if k == i || (k < j && Joins(cb, pb, i, k)) then newv else cb[k])
      invariant forall k :: 0 <= k < c.Length ==> p[k] == (pb[k] || (k < j && Joins(cb, pb, i, k)))
      decreases c.Length - j
    {
      if !p[j] {
        if c[j] * 0.8 < v < c[j] * 1.2 {
          c[j] := newv;
          p[j] := true;
        }
      }
      j := j + 2;
    }
    assert c[..] == StepValues(cb, pb, i);
    assert p[..] == StepFlags(cb, pb, i);
  }

  /** `normalise(c)`: each unprocessed entry leads a group of later
      same-parity, unprocessed, similar entries; the group is set to its mean
      and marked processed. */
  method Normalise(c: array<real>)
    modifies c
    ensures c[..] == Normalised(old(c[..]))
  {
    var entries := c.Length;
    var p := new bool[entries](_ => false);
    ghost var c0 := c[..];
    assert p[..] == seq(|c0|, _ => false);
    for i := 0 to entries
      invariant p.Length == entries
      invariant Run(c[..], p[..], i).0 == Normalised(c0)
    {
      if !p[i] {
        var newv := GroupAverage(c, p, i);
        SetGroup(c, p, i, newv);
      }
    }
  }

  // ---------------------------------------------------------------------
  // Comparing two presses.

  /** `compare`'s test: equal lengths, no zero in the second press, and every
      ratio within [0.8, 1.2]. */
  predicate Matches(a: seq<real>, b: seq<real>)
  {
    |a| == |b| && forall i :: 0 <= i < |a| ==> b[i] != 0.0 && 0.8 <= a[i] / b[i] <= 1.2
  }

  /** The averaged press: each entry is the rounded mean of the two presses. */
  function Averaged(a: seq<real>, b: seq<real>): (r: seq<real>)
    requires |a| == |b|
    ensures |r| == |a|
    ensures forall i :: 0 <= i < |a| ==> (a[i] + b[i]) / 2.0 - 0.5 <= r[i] <= (a[i] + b[i]) / 2.0 + 0.5
    ensures forall i :: 0 <= i < |a| ==> r[i] == r[i].Floor as real
  {
    seq(|a|, i requires 0 <= i < |a| => RoundReal((a[i] + b[i]) / 2.0) as real)
  }

  /** `compare(p1, p2)`: on a match `p1` becomes the averaged press, and
      otherwise it is left as it was. */
  method Compare(p1: array<real>, p2: seq<real>) returns (same: bool)
    modifies p1
    ensures same == Matches(old(p1[..]), p2)
    ensures same ==> p1[..] == Averaged(old(p1[..]), p2)
    ensures !same ==> p1[..] == old(p1[..])
  {
    if p1.Length != |p2| {
      return false;
    }
    for i := 0 to p1.Length
      invariant forall k :: 0 <= k < i ==> p2[k] != 0.0 && 0.8 <= p1[k] / p2[k] <= 1.2
    {
      if p2[i] == 0.0 {
        return false;
      }
      var v := p1[i] / p2[i];
      if v < 0.8 || v > 1.2 {
        return false;
      }
    }
    ghost var before := p1[..];
    for i := 0 to p1.Length
      invariant forall k :: 0 <= k < i ==> p1[k] == RoundReal((before[k] + p2[k]) / 2.0) as real
      invariant forall k :: i <= k < p1.Length ==> p1[k] == before[k]
    {
      p1[i] := RoundReal((p1[i] + p2[i]) / 2.0) as real;
    }
    return true;
  }

  /** The comparison is not symmetric: a press 20% shorter than the first
      matches, but not the other way round. */
  lemma MatchesNotSymmetric()
    ensures Matches([80.0], [100.0]) && !Matches([100.0], [80.0])
  {
    var a, b := [100.0], [80.0];
    assert a[0] / b[0] == 1.25;
  }

  /** Two close presses are averaged entry by entry. */
  lemma AveragedExample()
    ensures Matches([100.0, 200.0], [110.0, 190.0])
    ensures Averaged([100.0, 200.0], [110.0, 190.0]) == [105.0, 195.0]
  {
    assert RoundReal(105.0) == 105 && RoundReal(195.0) == 195;
  }

  // ---------------------------------------------------------------------
  // Capturing edges.

  const RxGpio: nat := 17
  /** The gap, in microseconds, that starts or ends a code. */
  const PreUs: int := 20000
  /** The watchdog timeout, in milliseconds, armed while a code is read. */
  const PostMs: int := 20
  /** A burst of at most this many gaps is taken for a repeat frame. */
  const ShortLimit: nat := 8

  /** pigpio ticks are 32-bit microsecond counters. */
  type Tick = x: int | 0 <= x < 0x1_0000_0000

  /** `tickDiff(t1, t2)`: the microseconds from `t1` to `t2` across a
      wrap-around of the counter. */
  function TickDiff(t1: Tick, t2: Tick): (d: int)
    ensures 0 <= d < 0x1_0000_0000
    ensures (t1 + d) % 0x1_0000_0000 == t2
  {
    var d := t2 - t1;
    if d < 0 then d + 0x1_0000_0000 else d
  }

  /** The level reported to the callback; Timeout is the watchdog firing. */
  datatype Level = Low | High | Timeout

  datatype IrMessage = PressKey | RepeatKey | TooManyRetries | ShortCode

  /** The closure state of the edge callback and what it has emitted. */
  datatype Capture = Capture(
    lastTick: Option<Tick>,
    inCode: bool,
    code: seq<real>,
    codeDone: bool,
    watchdog: seq<int>,
    messages: seq<IrMessage>)

  /** `end_of_code()`: a long enough burst is normalised and done; a short
      one is dropped with a SHORT_CODE message. */
  function EndCode(s: Capture): (r: Capture)
  {
    if |s.code| > ShortLimit then s.(code := Normalised(s.code), codeDone := true)
    else s.(code := [], messages := s.messages + [ShortCode])
  }

  /** `cbf(_, level, tick)`. */
  function OnEdge(s: Capture, level: Level, tick: Tick): (r: Capture)
  {
    var t := if s.lastTick.None? then s
      else if level != Timeout then
        var edge := TickDiff(s.lastTick.value, tick);
        if edge > PreUs then
          if s.inCode then EndCode(s.(inCode := false, watchdog := s.watchdog + [0]))
          else if !s.codeDone then s.(inCode := true, watchdog := s.watchdog + [PostMs])
          else s
        else if s.inCode then s.(code := s.code + [edge as real])
        else s
      else
        var w := s.(watchdog := s.watchdog + [0]);
        if s.inCode then EndCode(w.(inCode := false)) else w;
    if level != Timeout then t.(lastTick := Some(tick)) else t
  }

  /** A burst ends done with its length kept, or cleared and not done. */
  lemma EndCodeOutcome(s: Capture)
    ensures |s.code| > ShortLimit ==> EndCode(s).codeDone && |EndCode(s).code| == |s.code|
    ensures |s.code| <= ShortLimit ==>
              EndCode(s).code == [] && EndCode(s).codeDone == s.codeDone
              && EndCode(s).messages == s.messages + [ShortCode]
  {
  }

  /** The first event only records its tick. */
  lemma FirstEdgeOnlyRecordsTick(s: Capture, level: Level, tick: Tick)
    requires s.lastTick.None?
    ensures OnEdge(s, level, tick) == s.(lastTick := if level == Timeout then None else Some(tick))
  {
  }

  /** A watchdog timeout never moves `last_tick`; it cancels the watchdog
      and ends a code in progress. */
  lemma TimeoutKeepsTick(s: Capture, tick: Tick)
    requires s.lastTick.Some?
    ensures var r := OnEdge(s, Timeout, tick);
            && r.lastTick == s.lastTick && !r.inCode && r.watchdog == s.watchdog + [0]
            && (s.inCode ==> r.codeDone || r.code == [])
            && (!s.inCode ==> r.code == s.code && r.codeDone == s.codeDone)
  {
  }

  /** A gap longer than PRE_US ends a code in progress, or starts one if no
      code is done yet. Shorter gaps are recorded only inside a code. */
  lemma GapRules(s: Capture, level: Level, tick: Tick)
    requires s.lastTick.Some? && level != Timeout
    ensures var edge := TickDiff(s.lastTick.value, tick);
            var r := OnEdge(s, level, tick);
            && r.lastTick == Some(tick)
            && (edge > PreUs && s.inCode ==> !r.inCode && r.watchdog == s.watchdog + [0])
            && (edge > PreUs && !s.inCode ==> r.inCode == !s.codeDone && r.code == s.code)
            && (edge <= PreUs ==>
                  r.inCode == s.inCode && r.code == (if s.inCode then s.code + [edge as real] else s.code))
  {
  }

  /** The capture state of one recording, updated by the edge callback. */
  class Recorder {
    var lastTick: Option<Tick>
    var inCode: bool
    var code: seq<real>
    var codeDone: bool
    var watchdog: seq<int>
    var messages: seq<IrMessage>

    function State(): Capture
      reads this
    {
      Capture(lastTick, inCode, code, codeDone, watchdog, messages)
    }

    constructor ()
      ensures State() == Capture(None, false, [], false, [], [])
    {
      lastTick, inCode, code, codeDone, watchdog, messages := None, false, [], false, [], [];
    }

    method EndOfCode()
      modifies this`code, this`codeDone, this`messages
      ensures State() == EndCode(old(State()))
    {
      if |code| > ShortLimit {
        var burst := code;
        var a := new real[|burst|](i requires 0 <= i < |burst| => burst[i]);
        assert a[..] == burst;
        Normalise(a);
        code := a[..];
        codeDone := true;
      } else {
        code := [];
        messages := messages + [ShortCode];
      }
    }

    /** `cbf(_, level, tick)`. */
    method Cbf(level: Level, tick: Tick)
      modifies this
      ensures State() == OnEdge(old(State()), level, tick)
    {
      if lastTick.Some? {
        if level != Timeout {
          var edge := TickDiff(lastTick.value, tick);
          if edge > PreUs {
            if inCode {
              inCode := false;
              watchdog := watchdog + [0];
              EndOfCode();
            } else {
              if !codeDone {
                inCode := true;
                watchdog := watchdog + [PostMs];
              }
            }
          } else {
            if inCode {
              code := code + [edge as real];
            }
          }
        } else {
          watchdog := watchdog + [0];
          if inCode {
            inCode := false;
            EndOfCode();
          }
        }
      }
      if level != Timeout {
        lastTick := Some(tick);
      }
    }
  }

  // ---------------------------------------------------------------------
  // The two-press confirmation.

  /** The retries `_record_command` allows before giving up. */
  const MaxTries: nat := 5

  /** The index of the first later press that matches `first`, or `|rest|`. */
  function FirstMatch(first: seq<real>, rest: seq<seq<real>>): (k: nat)
    ensures k <= |rest|
    ensures forall j :: 0 <= j < k ==> !Matches(first, rest[j])
    ensures k < |rest| ==> Matches(first, rest[k])
  {
    if rest == [] then 0
    else if Matches(first, rest[0]) then 0
    else 1 + FirstMatch(first, rest[1..])
  }

  function Repeats(n: nat): (r: seq<IrMessage>)
    ensures |r| == n && forall i :: 0 <= i < n ==> r[i] == RepeatKey
  {
    if n == 0 then [] else Repeats(n - 1) + [RepeatKey]
  }

  datatype RecordOutcome =
    | Recorded(code: seq<real>)
    | GaveUp
    | StillWaiting

  /** The confirmation loop of `_record_command`, given the completed bursts
      in the order the capture delivers them (the first is the first press).
      PRESS_KEY is sent once, then REPEAT_KEY before each retry; the first of
      at most five retries that matches gives the averaged first press, and
      five mismatches give up with TOO_MANY_RETRIES. When the bursts run out
      the loop is still waiting for the next press. */
  method RecordCommand(bursts: seq<seq<real>>) returns (outcome: RecordOutcome, messages: seq<IrMessage>)
    ensures |bursts| == 0 ==> outcome == StillWaiting && messages == [PressKey]
    ensures |bursts| > 0 ==>
              var k := FirstMatch(bursts[0], bursts[1..]);
              if k < MaxTries && k < |bursts| - 1 then
                outcome == Recorded(Averaged(bursts[0], bursts[k + 1])) && messages == [PressKey] + Repeats(k + 1)
              else if k >= MaxTries then
                outcome == GaveUp && messages == [PressKey] + Repeats(MaxTries) + [TooManyRetries]
              else
                outcome == StillWaiting && messages == [PressKey] + Repeats(|bursts|)
  {
    messages := [PressKey];
    if |bursts| == 0 {
      return StillWaiting, messages;
    }
    var first := bursts[0];
    ghost var k := FirstMatch(first, bursts[1..]);
    var press1 := new real[|first|](i requires 0 <= i < |first| => first[i]);
    assert press1[..] == first;
    var matched := false;
    var tries := 0;
    while !matched
      invariant 0 <= tries <= MaxTries && tries < |bursts|
      invariant messages == [PressKey] + Repeats(tries)
      invariant !matched ==> press1[..] == first && tries <= k
      invariant matched ==> tries >= 1 && k == tries - 1 && press1[..] == Averaged(first, bursts[tries])
      decreases MaxTries - tries, if matched then 0 else 1
    {
      if tries > MaxTries - 1 {
        messages := messages + [TooManyRetries];
        return GaveUp, messages;
      }
      messages := messages + [RepeatKey];
      if tries + 1 >= |bursts| {
        return StillWaiting, messages;
      }
      var press2 := bursts[tries + 1];
      assert press2 == bursts[1..][tries];
      var same := Compare(press1, press2);
      if same {
        matched := true;
      }
      tries := tries + 1;
    }
    return Recorded(press1[..]), messages;
  }
}

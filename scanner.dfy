/** The global barcode listener of the point-of-sale screen: a lexer whose token boundary is a
    time gap. Keys arrive with the time at which they were pressed; the clock is a parameter. */
module Scanner {
  import opened Inventory

  /** The keys the screen's handlers distinguish. `Char` stands for every key whose name is one
      character long; `Named` for every other key (Shift, Tab, ...), so its name is never one
      character long. `KeyOf` builds a `Key` from the browser's key name in this way. */
  datatype Key = Char(c: char) | Enter | ArrowUp | ArrowDown | Escape | Named(name: string)

  /** The key a browser key name stands for: a one-character name is a character key, as the
      listener's `e.key.length === 1` test has it; the handlers' named keys are recognised by
      name; any other name is `Named`. */
  function KeyOf(name: string): (k: Key)
    ensures k.Char? <==> |name| == 1
    ensures k.Char? ==> k.c == name[0]
    ensures k.Enter? <==> name == "Enter"
    ensures k.Named? ==> k.name == name && |k.name| != 1
    ensures k.ArrowUp? <==> name == "ArrowUp"
    ensures k.ArrowDown? <==> name == "ArrowDown"
    ensures k.Escape? <==> name == "Escape"
  {
    if |name| == 1 then Char(name[0])
    else if name == "Enter" then Enter
    else if name == "ArrowUp" then ArrowUp
    else if name == "ArrowDown" then ArrowDown
    else if name == "Escape" then Escape
    else Named(name)
  }

  /** Longest gap, in milliseconds, between two keys of one scan. */
  const ScanTimeout: int := 50

  /** Delay after the last character at which the armed timer empties the buffer. */
  const ClearDelay: int := ScanTimeout + 50

  /** The listener's state: the buffer, the time of the last accepted key, and when the armed
      clear-timer fires (None when no timer is armed). */
  datatype ScanState = ScanState(buffer: string, lastKeyTime: int, clearAt: Option<int>)

  /** Whether the listener acts on `key` at time `now`: a character or Enter that arrives within the
      timeout of the last accepted key, or at any time while the buffer is empty. */
  predicate Takes(s: ScanState, key: Key, now: int)
  {
    (key.Char? || key.Enter?) && (now - s.lastKeyTime <= ScanTimeout || s.buffer == "")
  }

  /** The buffer part of the global keydown handler. The second component is the code handed to
      the catalog lookup, if any. */
  function OnKey(s: ScanState, key: Key, now: int): (r: (ScanState, Option<string>))
    ensures !Takes(s, key, now) ==> r == (s, None)
    ensures Takes(s, key, now) ==> r.0.lastKeyTime == now
    ensures Takes(s, key, now) && key.Char? ==>
      r.0.buffer == s.buffer + [key.c] && r.0.clearAt == Some(now + ClearDelay) && r.1 == None
    ensures Takes(s, key, now) && key.Enter? ==>
      r.0.buffer == "" && r.0.clearAt == None && (r.1.Some? <==> s.buffer != "")
    ensures r.1.Some? ==> r.1.value == s.buffer && key.Enter?
  {
    if !Takes(s, key, now) then (s, None)
    else if key.Enter? then
      (ScanState("", now, None), if s.buffer != "" then Some(s.buffer) else None)
    else
      (ScanState(s.buffer + [key.c], now, Some(now + ClearDelay)), None)
  }

  /** The armed timer, seen by a clock reading `now`: once its time has come it empties the buffer. */
  function OnTick(s: ScanState, now: int): (r: ScanState)
    ensures s.clearAt.Some? && now >= s.clearAt.value ==> r.buffer == "" && r.clearAt == None
    ensures !(s.clearAt.Some? && now >= s.clearAt.value) ==> r == s
    ensures r.lastKeyTime == s.lastKeyTime
  {
    if s.clearAt.Some? && now >= s.clearAt.value then s.(buffer := "", clearAt := None) else s
  }

  /** What the listener observes: a key press, or the clock reaching a time. */
  datatype Event = KeyDown(key: Key, time: int) | Tick(time: int)

  function Step(s: ScanState, e: Event): ScanState
  {
    match e
    case KeyDown(key, t) => OnKey(s, key, t).0
    case Tick(t) => OnTick(s, t)
  }

  /** The listener's state after a sequence of events, applied from the first. */
  function Run(s: ScanState, es: seq<Event>): ScanState
  {
    if es == [] then s else Step(Run(s, es[..|es| - 1]), es[|es| - 1])
  }

  /** The key presses of a scanner typing `code`, the i-th character at `times[i]`. */
  function Burst(code: string, times: seq<int>): (r: seq<Event>)
    requires |times| == |code|
    ensures |r| == |code|
    ensures forall i :: 0 <= i < |code| ==> r[i] == KeyDown(Char(code[i]), times[i])
  {
    seq(|code|, i requires 0 <= i < |code| => KeyDown(Char(code[i]), times[i]))
  }

  /** Each key follows the previous one within the scan timeout. */
  predicate Fast(times: seq<int>)
  {
    forall i :: 0 < i < |times| ==> times[i] - times[i - 1] <= ScanTimeout
  }

  /** A fast burst typed into an empty buffer leaves exactly the typed code in the buffer, with
      the clear-timer armed after the last key. */
  lemma {:induction false} BurstFillsBuffer(s: ScanState, code: string, times: seq<int>)
    requires s.buffer == "" && |code| == |times| > 0 && Fast(times)
    ensures Run(s, Burst(code, times)) == ScanState(code, times[|times| - 1], Some(times[|times| - 1] + ClearDelay))
  {
    var n := |code| - 1;
    var es := Burst(code, times);
    assert es[..n] == Burst(code[..n], times[..n]);
    if n == 0 {
      assert es[..0] == [];
      assert code == [code[0]];
    } else {
      BurstFillsBuffer(s, code[..n], times[..n]);
      assert code[..n] + [code[n]] == code;
    }
  }

  /** A fast burst followed, within the timeout, by Enter hands the whole code to the lookup
      and leaves the buffer empty. */
  lemma ScanResolves(s: ScanState, code: string, times: seq<int>, enterAt: int)
    requires s.buffer == "" && |code| == |times| > 0 && Fast(times)
    requires enterAt - times[|times| - 1] <= ScanTimeout
    ensures OnKey(Run(s, Burst(code, times)), Enter, enterAt) == (ScanState("", enterAt, None), Some(code))
  {
    BurstFillsBuffer(s, code, times);
  }

  /** A pause long enough for the timer to fire before the last character splits the scan: Enter
      then hands only that last character to the lookup, never the full code. */
  lemma PauseTruncatesScan(s: ScanState, code: string, times: seq<int>, c: char, tickAt: int, keyAt: int, enterAt: int)
    requires s.buffer == "" && |code| == |times| > 0 && Fast(times)
    requires tickAt >= times[|times| - 1] + ClearDelay
    requires enterAt - keyAt <= ScanTimeout
    ensures var afterPause := OnTick(Run(s, Burst(code, times)), tickAt);
      afterPause.buffer == "" &&
      OnKey(OnKey(afterPause, Char(c), keyAt).0, Enter, enterAt).1 == Some([c])
  {
    BurstFillsBuffer(s, code, times);
    assert "" + [c] == [c];
  }

  /** `products.find(p => p.barcode === code)`: the first product whose barcode equals the code. */
  function FindByBarcode(ps: seq<Product>, code: string): (r: Option<Product>)
    ensures r.Some? ==> exists i :: 0 <= i < |ps| && ps[i] == r.value && r.value.barcode == code &&
                          forall j :: 0 <= j < i ==> ps[j].barcode != code
    ensures r.None? <==> forall p :: p in ps ==> p.barcode != code
  {
    if ps == [] then None
    else if ps[0].barcode == code then Some(ps[0])
    else
      var r := FindByBarcode(ps[1..], code);
      assert forall p :: p in ps ==> p == ps[0] || p in ps[1..];
      if r.Some? then
        var i :| 0 <= i < |ps[1..]| && ps[1..][i] == r.value && r.value.barcode == code &&
                 forall j :: 0 <= j < i ==> ps[1..][j].barcode != code;
        assert ps[i + 1] == r.value;
        assert forall j :: 1 <= j < i + 1 ==> ps[j] == ps[1..][j - 1];
        r
      else r
  }
}

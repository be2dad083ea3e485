/** What the log of software/src/main.c guarantees.

    A log is read forwards through `Replay`, which gives the state the
    cartridge and the mapper are left in. `Safe` says every event of a log was
    allowed in the state it happened in. The lemmas below prove, for every
    environment, that `RunTrace` is safe, when it completes, how often it
    closes the UART and which chunks the UART receives. */
module DumpProps {
  import opened Common
  import opened Geometry
  import opened DumpSpec

  // ---------------------------------------------------------------------
  // Views of a log.

  /** The 16 KB-aligned regions `map_cart_phys` may be given. */
  predicate IsRegion(offset: nat) {
    offset == ROM_REGION || offset == CONTROL_REGION || offset == SRAM_REGION
  }

  /** Event `e` is allowed in state `w`:
      - a map targets one of the three aligned regions;
      - a cartridge write goes through the window while its region is
        mapped and reaches a register; a bank number is below 16;
      - UART data is read from the window with the save-RAM region
        mapped, the RAM enabled, a bank selected and, when `banking`,
        RAM banking mode on, and is the selected bank's bytes. */
  ghost predicate Fits(env: Env, banking: bool, w: Window, e: Event)
    requires WellFormed(env)
  {
    (e.Map? ==> IsRegion(e.offset)) &&
    (e.CartWrite? ==>
       w.mapped == Some(e.region) && e.offset < WINDOW_SIZE &&
       RegisterAt(e.region + e.offset) != OtherAddress &&
       (RegisterAt(e.region + e.offset) == RamBankReg ==> e.value < 16)) &&
    (e.UartWrite? ==>
       w.mapped == Some(SRAM_REGION) && w.ramEnable == Some(RAM_ENABLE) && w.ramBank.Some? &&
       (banking ==> w.bankingMode == Some(BANKING_MODE_RAM)) &&
       |e.data| <= WINDOW_SIZE && e.data == env.sram(w.ramBank.value)[..|e.data|])
  }

  /** Every event of `log` is allowed in the state before it. */
  ghost predicate Safe(env: Env, banking: bool, w: Window, log: seq<Event>)
    requires WellFormed(env)
    decreases |log|
  {
    log == [] || (Fits(env, banking, w, log[0]) && Safe(env, banking, Apply(w, log[0]), log[1..]))
  }

  /** Number of `close` calls in `log`. */
  function CloseCount(log: seq<Event>): nat
    decreases |log|
  {
    if log == [] then 0 else (if log[0].Close? then 1 else 0) + CloseCount(log[1..])
  }

  /** The chunks the UART received: the data of every successful write, in order. */
  function Chunks(log: seq<Event>): seq<seq<byte>>
    decreases |log|
  {
    if log == [] then [] else (if log[0].UartWrite? && log[0].ok then [log[0].data] else []) + Chunks(log[1..])
  }

  /** `main` returned 0. */
  predicate Completed(log: seq<Event>) {
    |log| > 0 && log[|log| - 1] == Return(0)
  }

  /** The process ended in `exit()`. */
  predicate Halted(log: seq<Event>) {
    |log| > 0 && log[|log| - 1] == Exit
  }

  /** All bytes of a sequence of chunks, in order. */
  function Flatten(chunks: seq<seq<byte>>): seq<byte>
    decreases |chunks|
  {
    if chunks == [] then [] else chunks[0] + Flatten(chunks[1..])
  }

  /** Safety and the final state of a concatenation compose from its parts. */
  lemma {:induction false} Concat(env: Env, banking: bool, w: Window, a: seq<Event>, b: seq<Event>)
    requires WellFormed(env)
    ensures Safe(env, banking, w, a + b) <==> Safe(env, banking, w, a) && Safe(env, banking, Replay(w, a), b)
    ensures Replay(w, a + b) == Replay(Replay(w, a), b)
    decreases |a|
  {
    if a == [] {
      assert a + b == b;
    } else {
      assert (a + b)[0] == a[0];
      assert (a + b)[1..] == a[1..] + b;
      Concat(env, banking, Apply(w, a[0]), a[1..], b);
      assert Safe(env, banking, w, a + b) == (Fits(env, banking, w, a[0]) && Safe(env, banking, Apply(w, a[0]), a[1..] + b));
    }
  }

  /** Closes and received chunks add up over a concatenation. */
  lemma {:induction false} ConcatCounts(a: seq<Event>, b: seq<Event>)
    ensures CloseCount(a + b) == CloseCount(a) + CloseCount(b)
    ensures Chunks(a + b) == Chunks(a) + Chunks(b)
    decreases |a|
  {
    if a == [] {
      assert a + b == b;
    } else {
      assert (a + b)[0] == a[0];
      assert (a + b)[1..] == a[1..] + b;
      ConcatCounts(a[1..], b);
    }
  }

  /** The views of a one-event log. */
  lemma Single(env: Env, banking: bool, w: Window, e: Event)
    requires WellFormed(env)
    ensures Safe(env, banking, w, [e]) == Fits(env, banking, w, e)
    ensures Replay(w, [e]) == Apply(w, e)
    ensures CloseCount([e]) == (if e.Close? then 1 else 0)
    ensures Chunks([e]) == (if e.UartWrite? && e.ok then [e.data] else [])
  {
    assert [e][1..] == [];
  }

  /** `log` ends with the events `tail`, compared from the last event
      backwards. */
  predicate EndsWith(log: seq<Event>, tail: seq<Event>)
    decreases |tail|
  {
    |tail| <= |log| &&
    (|tail| == 0 || (log[|log| - 1] == tail[|tail| - 1] && EndsWith(log[..|log| - 1], tail[..|tail| - 1])))
  }

  /** Every log ends with itself. */
  lemma {:induction false} EndsWithSelf(log: seq<Event>)
    ensures EndsWith(log, log)
    decreases |log|
  {
    if |log| > 0 {
      EndsWithSelf(log[..|log| - 1]);
    }
  }

  /** A log that ends with `tail` is some front followed by `tail`. */
  lemma {:induction false} EndsWithSplit(log: seq<Event>, tail: seq<Event>)
    requires EndsWith(log, tail)
    ensures log == log[..|log| - |tail|] + tail
    decreases |tail|
  {
    if |tail| > 0 {
      var log', tail' := log[..|log| - 1], tail[..|tail| - 1];
      EndsWithSplit(log', tail');
      assert log == log' + [log[|log| - 1]];
      assert tail == tail' + [tail[|tail| - 1]];
      assert log'[..|log'| - |tail'|] == log[..|log| - |tail|];
    }
  }

  /** What a non-empty second part ends with, the concatenation ends with. */
  lemma {:induction false} EndsWithAppend(a: seq<Event>, b: seq<Event>, tail: seq<Event>)
    requires EndsWith(b, tail)
    ensures EndsWith(a + b, tail)
    decreases |tail|
  {
    if |tail| > 0 {
      assert (a + b)[|a + b| - 1] == b[|b| - 1];
      assert (a + b)[..|a + b| - 1] == a + b[..|b| - 1];
      EndsWithAppend(a, b[..|b| - 1], tail[..|tail| - 1]);
    }
  }

  /** The ending of a concatenation is that of its non-empty second part. */
  lemma Ending(a: seq<Event>, b: seq<Event>, tail: seq<Event>)
    requires |b| > 0
    ensures Completed(a + b) == Completed(b) && Halted(a + b) == Halted(b)
    ensures EndsWith(b, tail) ==> EndsWith(a + b, tail)
  {
    assert (a + b)[|a + b| - 1] == b[|b| - 1];
    if EndsWith(b, tail) {
      EndsWithAppend(a, b, tail);
    }
  }

  // ---------------------------------------------------------------------
  // The pieces of the trace.

  /** The cleanup of a failed map changes nothing in the cartridge, closes
      the UART once when `uart_dev` is non-zero, and ends in `exit()`. */
  lemma AbortPiece(env: Env, banking: bool, w: Window, dev: int)
    requires WellFormed(env)
    ensures Safe(env, banking, w, Abort(dev)) && Replay(w, Abort(dev)) == w
    ensures CloseCount(Abort(dev)) == (if dev != 0 then 1 else 0) && Chunks(Abort(dev)) == []
    ensures Halted(Abort(dev))
  {
    var closing := if dev != 0 then [Close(dev)] else [];
    Concat(env, banking, w, closing, [Exit]);
    ConcatCounts(closing, [Exit]);
    Single(env, banking, w, Exit);
    if dev != 0 {
      Single(env, banking, w, Close(dev));
    }
  }

  /** `map_cart_phys(offset)` on an aligned region. */
  lemma MapPiece(env: Env, banking: bool, w: Window, dev: int, call: nat, offset: nat)
    requires WellFormed(env) && IsRegion(offset)
    ensures Safe(env, banking, w, MapEvents(env, dev, call, offset))
    ensures Replay(w, MapEvents(env, dev, call, offset)) == w.(mapped := if env.mapOk(call) then Some(offset) else None)
    ensures CloseCount(MapEvents(env, dev, call, offset)) == (if env.mapOk(call) || dev == 0 then 0 else 1)
    ensures Chunks(MapEvents(env, dev, call, offset)) == []
    ensures env.mapOk(call) ==> MapEvents(env, dev, call, offset) == [Map(offset, true)]
    ensures !env.mapOk(call) ==> Halted(MapEvents(env, dev, call, offset))
  {
    var e, rest := Map(offset, env.mapOk(call)), if env.mapOk(call) then [] else Abort(dev);
    Concat(env, banking, w, [e], rest);
    ConcatCounts([e], rest);
    Single(env, banking, w, e);
    if !env.mapOk(call) {
      AbortPiece(env, banking, Apply(w, e), dev);
      Ending([e], rest, []);
    } else {
      assert [e] + rest == [e];
    }
  }

  /** `map_cart_sram` with bank number `sel`: the RAM-enable and
      banking-mode registers keep their values and, when both maps
      succeed, the window shows the save RAM with bank `sel` selected. */
  lemma SelectPiece(env: Env, banking: bool, w: Window, dev: int, call: nat, sel: byte)
    requires WellFormed(env) && sel < 16
    ensures Safe(env, banking, w, SelectBank(env, dev, call, sel))
    ensures var after := Replay(w, SelectBank(env, dev, call, sel));
      after.ramEnable == w.ramEnable && after.bankingMode == w.bankingMode &&
      (env.mapOk(call) && env.mapOk(call + 1) ==> after.mapped == Some(SRAM_REGION) && after.ramBank == Some(sel))
    ensures CloseCount(SelectBank(env, dev, call, sel)) ==
      (if (env.mapOk(call) && env.mapOk(call + 1)) || dev == 0 then 0 else 1)
    ensures Chunks(SelectBank(env, dev, call, sel)) == []
    ensures !(env.mapOk(call) && env.mapOk(call + 1)) ==> Halted(SelectBank(env, dev, call, sel))
  {
    var first := MapEvents(env, dev, call, CONTROL_REGION);
    MapPiece(env, banking, w, dev, call, CONTROL_REGION);
    if !env.mapOk(call) {
      assert SelectBank(env, dev, call, sel) == first + [];
      assert first + [] == first;
      return;
    }
    var w1 := Replay(w, first);
    var write := CartWrite(CONTROL_REGION, 0, sel);
    var second := MapEvents(env, dev, call + 1, SRAM_REGION);
    Single(env, banking, w1, write);
    MapPiece(env, banking, Apply(w1, write), dev, call + 1, SRAM_REGION);
    Concat(env, banking, w1, [write], second);
    ConcatCounts([write], second);
    Concat(env, banking, w, first, [write] + second);
    ConcatCounts(first, [write] + second);
    if !env.mapOk(call + 1) {
      Ending(first, [write] + second, []);
      Ending([write], second, []);
    }
  }

  /** One round of the bank loop, entered with the RAM enabled (and, when
      `banking`, banking mode on), keeps to the window discipline and
      leaves those two registers unchanged. */
  lemma RoundSafe(env: Env, banking: bool, w: Window, dev: int, g: Geometry, call: nat, bank: nat)
    requires WellFormed(env) && g.bankSize <= WINDOW_SIZE
    requires w.ramEnable == Some(RAM_ENABLE) && (banking ==> w.bankingMode == Some(BANKING_MODE_RAM))
    ensures Safe(env, banking, w, Round(env, dev, g, call, bank))
    ensures var after := Replay(w, Round(env, dev, g, call, bank));
      after.ramEnable == w.ramEnable && after.bankingMode == w.bankingMode
  {
    var sel := (bank % 16) as byte;
    var select := SelectBank(env, dev, call, sel);
    SelectPiece(env, banking, w, dev, call, sel);
    if !(env.mapOk(call) && env.mapOk(call + 1)) {
      assert Round(env, dev, g, call, bank) == select + [];
      assert select + [] == select;
      return;
    }
    var send := UartWrite(dev, BankImage(env, g, bank), env.writeOk(bank));
    Single(env, banking, Replay(w, select), send);
    Concat(env, banking, w, select, [send]);
  }

  /** One round of the bank loop closes the UART only when one of its maps
      fails (and `uart_dev` is non-zero), exits then, and otherwise
      delivers the selected bank's bytes when the write succeeds. */
  lemma RoundEffects(env: Env, dev: int, g: Geometry, call: nat, bank: nat)
    requires WellFormed(env) && g.bankSize <= WINDOW_SIZE
    ensures CloseCount(Round(env, dev, g, call, bank)) ==
      (if (env.mapOk(call) && env.mapOk(call + 1)) || dev == 0 then 0 else 1)
    ensures Chunks(Round(env, dev, g, call, bank)) ==
      (if env.mapOk(call) && env.mapOk(call + 1) && env.writeOk(bank) then [BankImage(env, g, bank)] else [])
    ensures !(env.mapOk(call) && env.mapOk(call + 1)) ==> Halted(Round(env, dev, g, call, bank))
  {
    var sel := (bank % 16) as byte;
    var select := SelectBank(env, dev, call, sel);
    SelectPiece(env, false, Reset, dev, call, sel);
    if !(env.mapOk(call) && env.mapOk(call + 1)) {
      assert Round(env, dev, g, call, bank) == select + [];
      assert select + [] == select;
      return;
    }
    var send := UartWrite(dev, BankImage(env, g, bank), env.writeOk(bank));
    Single(env, false, Reset, send);
    ConcatCounts(select, [send]);
  }

  /** The end of a run in which every map succeeded: close the UART, map
      region 0, disable the RAM, return 0. */
  function Cleanup(dev: int): seq<Event> {
    [Close(dev), Map(ROM_REGION, true), CartWrite(ROM_REGION, 0, RAM_DISABLE), Return(0)]
  }

  /** The trace a double close ends with: close after the loop, the failed
      remap of region 0, the second close of its exit path, `exit()`. */
  function DoubleClose(dev: int): seq<Event> {
    [Close(dev), Map(ROM_REGION, false), Close(dev), Exit]
  }

  /** The cleanup after the loop keeps to the window discipline; when
      its map succeeds it leaves region 0 mapped and the RAM disabled. */
  lemma FinishSafe(env: Env, banking: bool, w: Window, dev: int, call: nat)
    requires WellFormed(env)
    ensures Safe(env, banking, w, Finish(env, dev, call))
    ensures var after := Replay(w, Finish(env, dev, call));
      after.bankingMode == w.bankingMode &&
      after.ramEnable == (if env.mapOk(call) then Some(RAM_DISABLE) else w.ramEnable) &&
      (env.mapOk(call) ==> after.mapped == Some(ROM_REGION))
  {
    var closing, remap := [Close(dev)], MapEvents(env, dev, call, ROM_REGION);
    Single(env, banking, w, Close(dev));
    MapPiece(env, banking, w, dev, call, ROM_REGION);
    Concat(env, banking, w, closing, remap);
    if !env.mapOk(call) {
      assert Finish(env, dev, call) == (closing + remap) + [];
      assert (closing + remap) + [] == closing + remap;
      return;
    }
    var w1 := Replay(w, closing + remap);
    var rest := [CartWrite(ROM_REGION, 0, RAM_DISABLE), Return(0)];
    Single(env, banking, w1, rest[0]);
    Single(env, banking, Apply(w1, rest[0]), rest[1]);
    Concat(env, banking, w1, [rest[0]], [rest[1]]);
    assert [rest[0]] + [rest[1]] == rest;
    Concat(env, banking, w, closing + remap, rest);
  }

  /** The cleanup after the loop: one `close`, then the map of region 0;
      when it succeeds the RAM is disabled and `main` returns 0, when it
      fails the UART is closed a second time unless `uart_dev` is 0. */
  lemma FinishEffects(env: Env, dev: int, call: nat)
    requires WellFormed(env)
    ensures env.mapOk(call) ==> Finish(env, dev, call) == Cleanup(dev)
    ensures !env.mapOk(call) ==> Finish(env, dev, call) == [Close(dev), Map(ROM_REGION, false)] + Abort(dev)
    ensures CloseCount(Finish(env, dev, call)) == (if env.mapOk(call) || dev == 0 then 1 else 2)
    ensures Chunks(Finish(env, dev, call)) == []
    ensures Completed(Finish(env, dev, call)) == env.mapOk(call)
    ensures !env.mapOk(call) ==> Halted(Finish(env, dev, call))
  {
    var closing, remap := [Close(dev)], MapEvents(env, dev, call, ROM_REGION);
    Single(env, false, Reset, Close(dev));
    MapPiece(env, false, Reset, dev, call, ROM_REGION);
    ConcatCounts(closing, remap);
    if !env.mapOk(call) {
      assert Finish(env, dev, call) == (closing + remap) + [];
      assert (closing + remap) + [] == closing + remap;
      Ending(closing, remap, []);
      return;
    }
    var rest := [CartWrite(ROM_REGION, 0, RAM_DISABLE), Return(0)];
    Single(env, false, Reset, rest[0]);
    Single(env, false, Reset, rest[1]);
    ConcatCounts([rest[0]], [rest[1]]);
    assert [rest[0]] + [rest[1]] == rest;
    ConcatCounts(closing + remap, rest);
  }

  /** The `n` map calls from index `from` on all succeed. */
  predicate AllMapsOk(env: Env, from: nat, n: nat)
    decreases n
  {
    n == 0 || (env.mapOk(from) && AllMapsOk(env, from + 1, n - 1))
  }

  /** A run of maps of at least two starts with two maps. */
  lemma AllMapsOkStep(env: Env, from: nat, n: nat)
    requires n >= 2
    ensures AllMapsOk(env, from, n) == (env.mapOk(from) && env.mapOk(from + 1) && AllMapsOk(env, from + 2, n - 2))
  {
  }

  /** The chunks the bank loop delivers from bank `bank` on when no map
      fails: the image of every bank whose write succeeds, in bank order. */
  function Sent(env: Env, g: Geometry, bank: nat): seq<seq<byte>>
    requires WellFormed(env) && g.bankSize <= WINDOW_SIZE
    decreases g.bankNum as int - bank
  {
    if bank >= g.bankNum as nat then []
    else (if env.writeOk(bank) then [BankImage(env, g, bank)] else []) + Sent(env, g, bank + 1)
  }

  /** The bank loop and cleanup keep to the window discipline; the
      banking-mode register is never touched again. */
  lemma {:induction false} TransferSafe(env: Env, banking: bool, w: Window, dev: int, g: Geometry, call: nat, bank: nat)
    requires WellFormed(env) && g.bankSize <= WINDOW_SIZE
    requires w.ramEnable == Some(RAM_ENABLE) && (banking ==> w.bankingMode == Some(BANKING_MODE_RAM))
    ensures Safe(env, banking, w, Transfer(env, dev, g, call, bank))
    ensures Replay(w, Transfer(env, dev, g, call, bank)).bankingMode == w.bankingMode
    decreases g.bankNum as int - bank
  {
    if bank >= g.bankNum as nat {
      FinishSafe(env, banking, w, dev, call);
    } else {
      var round := Round(env, dev, g, call, bank);
      RoundSafe(env, banking, w, dev, g, call, bank);
      if env.mapOk(call) && env.mapOk(call + 1) {
        TransferSafe(env, banking, Replay(w, round), dev, g, call + 2, bank + 1);
        Concat(env, banking, w, round, Transfer(env, dev, g, call + 2, bank + 1));
      }
    }
  }

  /** How a log ends: `main` returns 0 exactly when `allOk`; otherwise
      the process exits. */
  predicate EndsAs(log: seq<Event>, allOk: bool) {
    (Completed(log) <==> allOk) && (!Completed(log) ==> Halted(log))
  }

  /** What `TransferEnds` states carries over from the rest of the loop
      to the loop with one more round in front. */
  lemma EndsCompose(round: seq<Event>, rest: seq<Event>, allOk: bool)
    requires |rest| > 0 && EndsAs(rest, allOk)
    ensures EndsAs(round + rest, allOk)
  {
    Ending(round, rest, []);
  }

  /** How the bank loop and cleanup end, for the banks from `bank` on:
      `main` returns 0 exactly when all remaining maps succeed; otherwise
      the process exits. */
  lemma {:induction false} TransferEnds(env: Env, dev: int, g: Geometry, call: nat, bank: nat)
    requires WellFormed(env) && g.bankSize <= WINDOW_SIZE && bank <= g.bankNum as nat
    ensures EndsAs(Transfer(env, dev, g, call, bank), AllMapsOk(env, call, 2 * (g.bankNum as nat - bank) + 1))
    decreases g.bankNum as int - bank
  {
    if bank < g.bankNum as nat && env.mapOk(call) && env.mapOk(call + 1) {
      TransferEnds(env, dev, g, call + 2, bank + 1);
      RoundEnds(env, dev, g, call, bank);
    } else if bank < g.bankNum as nat {
      RoundEffects(env, dev, g, call, bank);
      AllMapsOkStep(env, call, 2 * (g.bankNum as nat - bank) + 1);
      TransferStep(env, dev, g, call, bank);
    } else {
      FinishEffects(env, dev, call);
      assert AllMapsOk(env, call, 2 * (g.bankNum as nat - bank) + 1) == env.mapOk(call);
    }
  }

  /** `TransferEnds` for a round whose maps succeed, from the rest of the
      loop. */
  lemma RoundEnds(env: Env, dev: int, g: Geometry, call: nat, bank: nat)
    requires WellFormed(env) && g.bankSize <= WINDOW_SIZE && bank < g.bankNum as nat
    requires env.mapOk(call) && env.mapOk(call + 1)
    requires EndsAs(Transfer(env, dev, g, call + 2, bank + 1), AllMapsOk(env, call + 2, 2 * (g.bankNum as nat - (bank + 1)) + 1))
    ensures EndsAs(Transfer(env, dev, g, call, bank), AllMapsOk(env, call, 2 * (g.bankNum as nat - bank) + 1))
  {
    var rounds := g.bankNum as nat - bank;
    TransferStep(env, dev, g, call, bank);
    AllMapsOkStep(env, call, 2 * rounds + 1);
    assert 2 * rounds + 1 - 2 == 2 * (g.bankNum as nat - (bank + 1)) + 1;
    EndsCompose(Round(env, dev, g, call, bank), Transfer(env, dev, g, call + 2, bank + 1),
                AllMapsOk(env, call + 2, 2 * (g.bankNum as nat - (bank + 1)) + 1));
  }

  /** The index of the map of region 0 after the bank loop, for the loop
      from bank `bank` on with `call` the index of its next map. */
  function LastMap(g: Geometry, call: nat, bank: nat): nat
    requires bank <= g.bankNum as nat
  {
    call + 2 * (g.bankNum as nat - bank)
  }

  /** When every map of the loop succeeds, the trace ends with the
      cleanup after the last bank. */
  lemma {:induction false} TransferTail(env: Env, dev: int, g: Geometry, call: nat, bank: nat)
    requires WellFormed(env) && g.bankSize <= WINDOW_SIZE && bank <= g.bankNum as nat
    requires AllMapsOk(env, call, 2 * (g.bankNum as nat - bank))
    ensures EndsWith(Transfer(env, dev, g, call, bank), Finish(env, dev, LastMap(g, call, bank)))
    decreases g.bankNum as int - bank
  {
    if bank < g.bankNum as nat {
      TailStep(env, g, call, bank);
      TransferTail(env, dev, g, call + 2, bank + 1);
      RoundTail(env, dev, g, call, bank);
    } else {
      FinishTail(env, dev, g, call, bank);
    }
  }

  /** The maps of the loop from bank `bank` on are those of its round and
      of the loop from the next bank on. */
  lemma TailStep(env: Env, g: Geometry, call: nat, bank: nat)
    requires bank < g.bankNum as nat && AllMapsOk(env, call, 2 * (g.bankNum as nat - bank))
    ensures env.mapOk(call) && env.mapOk(call + 1) && AllMapsOk(env, call + 2, 2 * (g.bankNum as nat - (bank + 1)))
  {
    AllMapsOkStep(env, call, 2 * (g.bankNum as nat - bank));
    assert 2 * (g.bankNum as nat - bank) - 2 == 2 * (g.bankNum as nat - (bank + 1));
  }

  /** `TransferTail` for the cleanup alone. */
  lemma FinishTail(env: Env, dev: int, g: Geometry, call: nat, bank: nat)
    requires WellFormed(env) && g.bankSize <= WINDOW_SIZE && bank == g.bankNum as nat
    ensures EndsWith(Transfer(env, dev, g, call, bank), Finish(env, dev, LastMap(g, call, bank)))
  {
    assert LastMap(g, call, bank) == call;
    EndsWithSelf(Finish(env, dev, call));
  }

  /** `TransferTail` for one more round in front. */
  lemma RoundTail(env: Env, dev: int, g: Geometry, call: nat, bank: nat)
    requires WellFormed(env) && g.bankSize <= WINDOW_SIZE && bank < g.bankNum as nat
    requires env.mapOk(call) && env.mapOk(call + 1)
    requires EndsWith(Transfer(env, dev, g, call + 2, bank + 1), Finish(env, dev, LastMap(g, call + 2, bank + 1)))
    ensures EndsWith(Transfer(env, dev, g, call, bank), Finish(env, dev, LastMap(g, call, bank)))
  {
    TransferStep(env, dev, g, call, bank);
    assert LastMap(g, call + 2, bank + 1) == LastMap(g, call, bank);
    Ending(Round(env, dev, g, call, bank), Transfer(env, dev, g, call + 2, bank + 1), Finish(env, dev, LastMap(g, call, bank)));
  }

  /** A log that ends with the cleanup leaves region 0 mapped and the RAM
      disabled. */
  lemma CleanupWindow(env: Env, w: Window, dev: int, t: seq<Event>)
    requires WellFormed(env) && EndsWith(t, Cleanup(dev))
    ensures Replay(w, t).mapped == Some(ROM_REGION) && Replay(w, t).ramEnable == Some(RAM_DISABLE)
  {
    var c := Cleanup(dev);
    var front := t[..|t| - 4];
    EndsWithSplit(t, c);
    Concat(env, false, w, front, c);
    var w0 := Replay(w, front);
    assert c == [c[0], c[1]] + [c[2], c[3]];
    Concat(env, false, w0, [c[0], c[1]], [c[2], c[3]]);
    assert [c[0], c[1]] == [c[0]] + [c[1]];
    assert [c[2], c[3]] == [c[2]] + [c[3]];
    Concat(env, false, w0, [c[0]], [c[1]]);
    Single(env, false, w0, c[0]);
    var w1 := Apply(w0, c[0]);
    Single(env, false, w1, c[1]);
    var w2 := Apply(w1, c[1]);
    Concat(env, false, w2, [c[2]], [c[3]]);
    Single(env, false, w2, c[2]);
    Single(env, false, Apply(w2, c[2]), c[3]);
  }

  /** A round that does not close leaves the count and the ending of the
      rest of the loop as they are. */
  lemma ClosesCompose(round: seq<Event>, rest: seq<Event>, tail: seq<Event>)
    requires CloseCount(round) == 0 && |rest| > 0
    ensures CloseCount(round + rest) == CloseCount(rest)
    ensures EndsWith(rest, tail) ==> EndsWith(round + rest, tail)
  {
    ConcatCounts(round, rest);
    Ending(round, rest, tail);
  }

  /** The number of `close` calls of the bank loop and cleanup, given
      whether all maps of the loop succeed (`loopOk`) and whether the map
      of region 0 after it does (`lastOk`): once, or twice when only that
      last map fails and `uart_dev` is non-zero; once or not at all (as
      `uart_dev` is non-zero or 0) when a map of the loop fails. */
  function LoopCloses(loopOk: bool, lastOk: bool, dev: int): (n: nat)
    ensures n <= 2
    ensures n == 2 <==> loopOk && !lastOk && dev != 0
  {
    if loopOk then (if lastOk || dev == 0 then 1 else 2)
    else (if dev == 0 then 0 else 1)
  }

  /** A round whose two maps succeed adds no `close` to the rest of the
      loop. */
  lemma ClosesStep(env: Env, dev: int, call: nat, rounds: nat, round: seq<Event>, rest: seq<Event>)
    requires rounds >= 1 && env.mapOk(call) && env.mapOk(call + 1)
    requires CloseCount(round) == 0 && |rest| > 0
    requires CloseCount(rest) == LoopCloses(AllMapsOk(env, call + 2, 2 * (rounds - 1)), env.mapOk(call + 2 + 2 * (rounds - 1)), dev)
    ensures CloseCount(round + rest) == LoopCloses(AllMapsOk(env, call, 2 * rounds), env.mapOk(call + 2 * rounds), dev)
  {
    ClosesCompose(round, rest, []);
    AllMapsOkStep(env, call, 2 * rounds);
    assert 2 * rounds - 2 == 2 * (rounds - 1) && call + 2 * rounds == call + 2 + 2 * (rounds - 1);
  }

  /** `TransferCloses` for the cleanup alone. */
  lemma FinishCloses(env: Env, dev: int, g: Geometry, call: nat, bank: nat)
    requires WellFormed(env) && g.bankSize <= WINDOW_SIZE && bank == g.bankNum as nat
    ensures CloseCount(Transfer(env, dev, g, call, bank)) ==
      LoopCloses(AllMapsOk(env, call, 2 * (g.bankNum as nat - bank)), env.mapOk(call + 2 * (g.bankNum as nat - bank)), dev)
  {
    FinishEffects(env, dev, call);
    assert 2 * (g.bankNum as nat - bank) == 0;
  }

  /** `TransferCloses` for a round whose maps fail. */
  lemma FailedRoundCloses(env: Env, dev: int, g: Geometry, call: nat, bank: nat)
    requires WellFormed(env) && g.bankSize <= WINDOW_SIZE && bank < g.bankNum as nat
    requires !(env.mapOk(call) && env.mapOk(call + 1))
    ensures CloseCount(Transfer(env, dev, g, call, bank)) ==
      LoopCloses(AllMapsOk(env, call, 2 * (g.bankNum as nat - bank)), env.mapOk(call + 2 * (g.bankNum as nat - bank)), dev)
  {
    RoundEffects(env, dev, g, call, bank);
    AllMapsOkStep(env, call, 2 * (g.bankNum as nat - bank));
    TransferStep(env, dev, g, call, bank);
  }

  /** `TransferCloses` for a round whose maps succeed, from the count of
      the rest of the loop. */
  lemma RoundCloses(env: Env, dev: int, g: Geometry, call: nat, bank: nat)
    requires WellFormed(env) && g.bankSize <= WINDOW_SIZE && bank < g.bankNum as nat
    requires env.mapOk(call) && env.mapOk(call + 1)
    requires CloseCount(Transfer(env, dev, g, call + 2, bank + 1)) ==
      LoopCloses(AllMapsOk(env, call + 2, 2 * (g.bankNum as nat - (bank + 1))), env.mapOk(call + 2 + 2 * (g.bankNum as nat - (bank + 1))), dev)
    ensures CloseCount(Transfer(env, dev, g, call, bank)) ==
      LoopCloses(AllMapsOk(env, call, 2 * (g.bankNum as nat - bank)), env.mapOk(call + 2 * (g.bankNum as nat - bank)), dev)
  {
    var rounds := g.bankNum as nat - bank;
    RoundEffects(env, dev, g, call, bank);
    TransferStep(env, dev, g, call, bank);
    assert g.bankNum as nat - (bank + 1) == rounds - 1;
    ClosesStep(env, dev, call, rounds, Round(env, dev, g, call, bank), Transfer(env, dev, g, call + 2, bank + 1));
  }

  /** How often the bank loop and cleanup close the UART. */
  lemma {:induction false} TransferCloses(env: Env, dev: int, g: Geometry, call: nat, bank: nat)
    requires WellFormed(env) && g.bankSize <= WINDOW_SIZE && bank <= g.bankNum as nat
    ensures CloseCount(Transfer(env, dev, g, call, bank)) ==
      LoopCloses(AllMapsOk(env, call, 2 * (g.bankNum as nat - bank)), env.mapOk(call + 2 * (g.bankNum as nat - bank)), dev)
    decreases g.bankNum as int - bank
  {
    if bank < g.bankNum as nat && env.mapOk(call) && env.mapOk(call + 1) {
      TransferCloses(env, dev, g, call + 2, bank + 1);
      RoundCloses(env, dev, g, call, bank);
    } else if bank < g.bankNum as nat {
      FailedRoundCloses(env, dev, g, call, bank);
    } else {
      FinishCloses(env, dev, g, call, bank);
    }
  }

  /** A second `close` happens only in the cleanup: the trace then ends
      with `DoubleClose`. */
  lemma TransferDoubleClose(env: Env, dev: int, g: Geometry, call: nat, bank: nat)
    requires WellFormed(env) && g.bankSize <= WINDOW_SIZE && bank <= g.bankNum as nat
    ensures CloseCount(Transfer(env, dev, g, call, bank)) == 2 ==>
      EndsWith(Transfer(env, dev, g, call, bank), DoubleClose(dev))
  {
    var last := LastMap(g, call, bank);
    TransferCloses(env, dev, g, call, bank);
    if CloseCount(Transfer(env, dev, g, call, bank)) == 2 {
      assert AllMapsOk(env, call, 2 * (g.bankNum as nat - bank)) && !env.mapOk(last) && dev != 0;
      TransferTail(env, dev, g, call, bank);
      FailedFinish(env, dev, last);
    }
  }

  /** The cleanup whose remap of region 0 fails, with `uart_dev` non-zero. */
  lemma FailedFinish(env: Env, dev: int, call: nat)
    requires !env.mapOk(call) && dev != 0
    ensures Finish(env, dev, call) == DoubleClose(dev)
  {
  }

  /** When the loop's maps all succeed, the UART receives `Sent`: a failed
      write does not stop the loop. */
  lemma {:induction false} TransferChunks(env: Env, dev: int, g: Geometry, call: nat, bank: nat)
    requires WellFormed(env) && g.bankSize <= WINDOW_SIZE && bank <= g.bankNum as nat
    requires AllMapsOk(env, call, 2 * (g.bankNum as nat - bank))
    ensures Chunks(Transfer(env, dev, g, call, bank)) == Sent(env, g, bank)
    decreases g.bankNum as int - bank
  {
    if bank < g.bankNum as nat {
      TailStep(env, g, call, bank);
      TransferChunks(env, dev, g, call + 2, bank + 1);
      RoundChunks(env, dev, g, call, bank);
    } else {
      FinishEffects(env, dev, call);
    }
  }

  /** `TransferChunks` for one more round in front. */
  lemma RoundChunks(env: Env, dev: int, g: Geometry, call: nat, bank: nat)
    requires WellFormed(env) && g.bankSize <= WINDOW_SIZE && bank < g.bankNum as nat
    requires env.mapOk(call) && env.mapOk(call + 1)
    requires Chunks(Transfer(env, dev, g, call + 2, bank + 1)) == Sent(env, g, bank + 1)
    ensures Chunks(Transfer(env, dev, g, call, bank)) == Sent(env, g, bank)
  {
    TransferStep(env, dev, g, call, bank);
    RoundEffects(env, dev, g, call, bank);
    ConcatCounts(Round(env, dev, g, call, bank), Transfer(env, dev, g, call + 2, bank + 1));
  }

  /** `cart_virt[0] = 0xA` with region 0 mapped and, for MBC1, the map of
      region 0x4000 and the banking-mode write: keeps to the window
      discipline, enables the RAM, and turns banking mode on exactly for
      MBC1 with a successful map. */
  lemma EnableSafe(env: Env, banking: bool, w: Window, dev: int, cartType: byte, call: nat)
    requires WellFormed(env) && w.mapped == Some(ROM_REGION)
    ensures Safe(env, banking, w, EnableRamEvents(env, dev, cartType, call))
    ensures var after := Replay(w, EnableRamEvents(env, dev, cartType, call));
      after.ramEnable == Some(RAM_ENABLE) &&
      after.bankingMode == (if cartType == MBC1_RAM_BATT && env.mapOk(call) then Some(BANKING_MODE_RAM) else w.bankingMode)
  {
    var enable := CartWrite(ROM_REGION, 0, RAM_ENABLE);
    Single(env, banking, w, enable);
    var w1 := Apply(w, enable);
    if cartType != MBC1_RAM_BATT {
      assert EnableRamEvents(env, dev, cartType, call) == [enable] + [];
      assert [enable] + [] == [enable];
      return;
    }
    var remap := MapEvents(env, dev, call, CONTROL_REGION);
    var mode := if env.mapOk(call) then [CartWrite(CONTROL_REGION, BANKING_MODE_OFFSET, BANKING_MODE_RAM)] else [];
    MapPiece(env, banking, w1, dev, call, CONTROL_REGION);
    if env.mapOk(call) {
      Single(env, banking, Replay(w1, remap), mode[0]);
      assert mode == [mode[0]];
    }
    Concat(env, banking, w1, remap, mode);
    Concat(env, banking, w, [enable], remap + mode);
  }

  /** Enabling the RAM closes the UART only when the MBC1 map fails (and
      `uart_dev` is non-zero), and then exits; it starts with the
      RAM-enable write. */
  lemma EnableEffects(env: Env, dev: int, cartType: byte, call: nat)
    requires WellFormed(env)
    ensures var e := EnableRamEvents(env, dev, cartType, call);
      var failed := cartType == MBC1_RAM_BATT && !env.mapOk(call);
      e[0] == CartWrite(ROM_REGION, 0, RAM_ENABLE) &&
      CloseCount(e) == (if failed && dev != 0 then 1 else 0) && Chunks(e) == [] &&
      (failed ==> Halted(e))
  {
    var enable := CartWrite(ROM_REGION, 0, RAM_ENABLE);
    Single(env, false, Reset, enable);
    if cartType != MBC1_RAM_BATT {
      assert EnableRamEvents(env, dev, cartType, call) == [enable] + [];
      assert [enable] + [] == [enable];
      return;
    }
    var remap := MapEvents(env, dev, call, CONTROL_REGION);
    var mode := if env.mapOk(call) then [CartWrite(CONTROL_REGION, BANKING_MODE_OFFSET, BANKING_MODE_RAM)] else [];
    MapPiece(env, false, Reset, dev, call, CONTROL_REGION);
    if env.mapOk(call) {
      Single(env, false, Reset, mode[0]);
      assert mode == [mode[0]];
    } else {
      assert remap + mode == remap;
      Ending([enable], remap, []);
    }
    ConcatCounts(remap, mode);
    ConcatCounts([enable], remap + mode);
  }
}

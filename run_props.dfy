/** Properties of the whole log `RunTrace(env)` of software/src/main.c,
    for every environment: the window discipline, when `main` returns,
    how often it closes the UART, and what the UART receives. */
module RunProps {
  import opened Common
  import opened Geometry
  import opened DumpSpec
  import opened DumpProps

  /** The number of `map` calls of a run that completes: the header, the
      MBC1 banking-mode region, two per bank, and the final remap. */
  function TotalMaps(cartType: byte, g: Geometry): nat {
    1 + (if cartType == MBC1_RAM_BATT then 1 else 0) + 2 * g.bankNum as nat + 1
  }

  /** The UART opens, the cartridge type is supported and every map call
      succeeds. UART write results play no part. */
  ghost predicate Normal(env: Env)
    requires WellFormed(env)
  {
    env.openResult >= 0 &&
    var r := Resolve(CartType(env), RamCode(env));
    r.Some? && AllMapsOk(env, 0, TotalMaps(CartType(env), r.value))
  }

  /** A normal run gets past the header map and the MBC1 map, and every
      map of its bank loop and of the cleanup succeeds. */
  lemma NormalLoop(env: Env)
    requires WellFormed(env) && Normal(env)
    ensures env.openResult >= 0 && env.mapOk(0) && Resolve(CartType(env), RamCode(env)).Some?
    ensures CartType(env) == MBC1_RAM_BATT ==> env.mapOk(1)
    ensures AllMapsOk(env, LoopStart(CartType(env)), LoopMaps(env))
    ensures env.mapOk(LoopStart(CartType(env)) + LoopMaps(env))
  {
    NormalMaps(env);
    AllMapsOkSplit(env, LoopStart(CartType(env)), LoopMaps(env), 1);
  }

  /** A run of maps splits into two consecutive runs. */
  lemma {:induction false} AllMapsOkSplit(env: Env, from: nat, a: nat, b: nat)
    ensures AllMapsOk(env, from, a + b) == (AllMapsOk(env, from, a) && AllMapsOk(env, from + a, b))
    decreases a
  {
    if a > 0 {
      AllMapsOkSplit(env, from + 1, a - 1, b);
      assert a + b - 1 == (a - 1) + b;
    }
  }

  /** The maps of a complete run: the header map, the MBC1 map, then the
      `2 * bank_num + 1` maps of the loop and cleanup. */
  lemma NormalMaps(env: Env)
    requires WellFormed(env) && env.openResult >= 0 && Resolve(CartType(env), RamCode(env)).Some?
    ensures Normal(env) == (env.mapOk(0) && (CartType(env) == MBC1_RAM_BATT ==> env.mapOk(1)) &&
                            AllMapsOk(env, LoopStart(CartType(env)), LoopMaps(env) + 1))
  {
    var g := Resolve(CartType(env), RamCode(env)).value;
    var n := 2 * g.bankNum as nat + 1;
    if CartType(env) == MBC1_RAM_BATT {
      AllMapsOkSplit(env, 0, 2, n);
      assert TotalMaps(CartType(env), g) == 2 + n;
    } else {
      AllMapsOkSplit(env, 0, 1, n);
      assert TotalMaps(CartType(env), g) == 1 + n;
    }
  }

  /** The parts of a run that got past the header map with a supported type. */
  lemma RunParts(env: Env)
    requires WellFormed(env) && env.openResult >= 0 && env.mapOk(0)
    requires Resolve(CartType(env), RamCode(env)).Some?
    ensures var dev, ct, g := env.openResult, CartType(env), Resolve(CartType(env), RamCode(env)).value;
      RunTrace(env) == [Open(dev), Map(ROM_REGION, true)] + (EnableRamEvents(env, dev, ct, 1) + BankPhase(env, dev, g, ct))
  {
    var dev := env.openResult;
    assert MapEvents(env, dev, 0, ROM_REGION) == [Map(ROM_REGION, true)];
    assert [Open(dev)] + [Map(ROM_REGION, true)] == [Open(dev), Map(ROM_REGION, true)];
  }

  /** The window discipline holds over the whole run, and banking mode is
      turned on exactly when the type is MBC1 and its map of region
      0x4000 succeeds; for every other run the banking-mode register is
      never written. */
  lemma RunSafe(env: Env)
    requires WellFormed(env)
    ensures Safe(env, CartType(env) == MBC1_RAM_BATT, Reset, RunTrace(env))
    ensures Replay(Reset, RunTrace(env)).bankingMode ==
      if env.openResult >= 0 && env.mapOk(0) && IsSupported(CartType(env)) &&
         CartType(env) == MBC1_RAM_BATT && env.mapOk(1)
      then Some(BANKING_MODE_RAM) else None
  {
    var dev, ct := env.openResult, CartType(env);
    var banking := ct == MBC1_RAM_BATT;
    var t := RunTrace(env);
    Single(env, banking, Reset, Open(dev));
    if dev < 0 {
      Single(env, banking, Reset, Exit);
      Concat(env, banking, Reset, [Open(dev)], [Exit]);
      assert t == [Open(dev)] + [Exit];
      return;
    }
    var head := [Open(dev)] + MapEvents(env, dev, 0, ROM_REGION);
    MapPiece(env, banking, Reset, dev, 0, ROM_REGION);
    Concat(env, banking, Reset, [Open(dev)], MapEvents(env, dev, 0, ROM_REGION));
    if !env.mapOk(0) {
      assert t == head + [];
      assert head + [] == head;
      return;
    }
    var w1 := Replay(Reset, head);
    var dump := Dump(env, dev);
    assert t == head + dump;
    Concat(env, banking, Reset, head, dump);
    var r := Resolve(ct, RamCode(env));
    if r.None? {
      assert dump == [Exit];
      Single(env, banking, w1, Exit);
      return;
    }
    var g := r.value;
    var enable := EnableRamEvents(env, dev, ct, 1);
    var phase := BankPhase(env, dev, g, ct);
    assert dump == enable + phase;
    EnableSafe(env, banking, w1, dev, ct, 1);
    var w2 := Replay(w1, enable);
    Concat(env, banking, w1, enable, phase);
    if ct != MBC1_RAM_BATT {
      TransferSafe(env, banking, w2, dev, g, 1, 0);
    } else if env.mapOk(1) {
      TransferSafe(env, banking, w2, dev, g, 2, 0);
    } else {
      assert phase == [];
    }
  }

  /** `main` returns 0 exactly in a normal run, and the trace then ends
      with the cleanup; every other run ends in `exit()`. */
  lemma RunEnds(env: Env)
    requires WellFormed(env)
    ensures Completed(RunTrace(env)) <==> Normal(env)
    ensures !Completed(RunTrace(env)) ==> Halted(RunTrace(env))
    ensures Completed(RunTrace(env)) ==> EndsWith(RunTrace(env), Cleanup(env.openResult))
  {
    RunOutcome(env);
    if Normal(env) {
      NormalRunTail(env);
    }
  }

  /** The bank phase of a run that got past the header map with a
      supported type. */
  function Phase(env: Env): seq<Event>
    requires WellFormed(env) && Resolve(CartType(env), RamCode(env)).Some?
  {
    BankPhase(env, env.openResult, Resolve(CartType(env), RamCode(env)).value, CartType(env))
  }

  /** The end of a run with a non-empty bank phase is that of the phase. */
  lemma RunPartsEnds(env: Env, tail: seq<Event>)
    requires WellFormed(env) && env.openResult >= 0 && env.mapOk(0)
    requires Resolve(CartType(env), RamCode(env)).Some? && |Phase(env)| > 0
    ensures Completed(RunTrace(env)) == Completed(Phase(env)) && Halted(RunTrace(env)) == Halted(Phase(env))
    ensures EndsWith(Phase(env), tail) ==> EndsWith(RunTrace(env), tail)
  {
    var dev, ct := env.openResult, CartType(env);
    var start := [Open(dev), Map(ROM_REGION, true)];
    var enable := EnableRamEvents(env, dev, ct, 1);
    RunParts(env);
    Ending(enable, Phase(env), tail);
    Ending(start, enable + Phase(env), tail);
  }

  /** Whether `main` returns 0 or exits. */
  lemma RunOutcome(env: Env)
    requires WellFormed(env)
    ensures EndsAs(RunTrace(env), Normal(env))
  {
    var dev, ct := env.openResult, CartType(env);
    var t := RunTrace(env);
    if dev < 0 {
      return;
    }
    if !env.mapOk(0) {
      var head := MapEvents(env, dev, 0, ROM_REGION);
      MapPiece(env, false, Reset, dev, 0, ROM_REGION);
      assert t == [Open(dev)] + head + [];
      assert [Open(dev)] + head + [] == [Open(dev)] + head;
      Ending([Open(dev)], head, []);
      return;
    }
    var r := Resolve(ct, RamCode(env));
    if r.None? {
      assert t == [Open(dev), Map(ROM_REGION, true), Exit];
      return;
    }
    NormalMaps(env);
    assert LoopMaps(env) == 2 * r.value.bankNum as nat;
    if ct == MBC1_RAM_BATT && !env.mapOk(1) {
      MbcFailureEnds(env);
      return;
    }
    PhaseOutcome(env, r.value);
    RunPartsEnds(env, []);
  }

  /** A run whose MBC1 banking-mode map fails ends in `exit()`. */
  lemma MbcFailureEnds(env: Env)
    requires WellFormed(env) && env.openResult >= 0 && env.mapOk(0)
    requires Resolve(CartType(env), RamCode(env)).Some?
    requires CartType(env) == MBC1_RAM_BATT && !env.mapOk(1)
    ensures Halted(RunTrace(env)) && !Completed(RunTrace(env))
  {
    var dev, ct := env.openResult, CartType(env);
    var enable := EnableRamEvents(env, dev, ct, 1);
    RunParts(env);
    EnableEffects(env, dev, ct, 1);
    assert Phase(env) == [];
    assert enable + Phase(env) == enable;
    Ending([Open(dev), Map(ROM_REGION, true)], enable, []);
  }

  /** How the bank phase of a run that reaches the bank loop ends. */
  lemma PhaseOutcome(env: Env, g: Geometry)
    requires WellFormed(env) && Resolve(CartType(env), RamCode(env)) == Some(g)
    requires CartType(env) == MBC1_RAM_BATT ==> env.mapOk(1)
    ensures |Phase(env)| > 0
    ensures EndsAs(Phase(env), AllMapsOk(env, LoopStart(CartType(env)), 2 * g.bankNum as nat + 1))
  {
    var dev, ct := env.openResult, CartType(env);
    PhaseIsLoop(env, dev, g, ct);
    assert 2 * (g.bankNum as nat - 0) + 1 == 2 * g.bankNum as nat + 1;
    TransferEnds(env, dev, g, LoopStart(ct), 0);
  }

  /** A normal run ends with the cleanup. */
  lemma NormalRunTail(env: Env)
    requires WellFormed(env) && Normal(env)
    ensures EndsWith(RunTrace(env), Cleanup(env.openResult))
  {
    var g := Resolve(CartType(env), RamCode(env)).value;
    NormalMaps(env);
    assert LoopMaps(env) == 2 * g.bankNum as nat;
    PhaseTail(env, g);
    RunPartsEnds(env, Cleanup(env.openResult));
  }

  /** The bank phase of a normal run ends with the cleanup. */
  lemma PhaseTail(env: Env, g: Geometry)
    requires WellFormed(env) && Resolve(CartType(env), RamCode(env)) == Some(g)
    requires CartType(env) == MBC1_RAM_BATT ==> env.mapOk(1)
    requires AllMapsOk(env, LoopStart(CartType(env)), 2 * g.bankNum as nat + 1)
    ensures |Phase(env)| > 0 && EndsWith(Phase(env), Cleanup(env.openResult))
  {
    var dev, ct := env.openResult, CartType(env);
    var first, n := LoopStart(ct), 2 * g.bankNum as nat;
    AllMapsOkSplit(env, first, n, 1);
    assert AllMapsOk(env, first, n) && env.mapOk(first + n);
    PhaseIsLoop(env, dev, g, ct);
    assert 2 * (g.bankNum as nat - 0) == n;
    TransferTail(env, dev, g, first, 0);
    assert LastMap(g, first, 0) == first + n;
    FinishEffects(env, dev, first + n);
  }

  /** A normal run leaves region 0 mapped and the RAM disabled. */
  lemma NormalRunDisablesRam(env: Env)
    requires WellFormed(env) && Normal(env)
    ensures Replay(Reset, RunTrace(env)).mapped == Some(ROM_REGION)
    ensures Replay(Reset, RunTrace(env)).ramEnable == Some(RAM_DISABLE)
  {
    RunEnds(env);
    CleanupWindow(env, Reset, env.openResult, RunTrace(env));
  }

  /** The UART is closed at most twice; twice only when the remap of
      region 0 after the loop fails, the trace then ending with
      `DoubleClose`. */
  lemma RunCloses(env: Env)
    requires WellFormed(env)
    ensures CloseCount(RunTrace(env)) <= 2
    ensures CloseCount(RunTrace(env)) == 2 ==> EndsWith(RunTrace(env), DoubleClose(env.openResult))
  {
    var ct := CartType(env);
    if env.openResult < 0 || !env.mapOk(0) || Resolve(ct, RamCode(env)).None? {
      EarlyExitCloses(env);
    } else if ct == MBC1_RAM_BATT && !env.mapOk(1) {
      MbcFailureCloses(env);
    } else {
      RunLoopCloses(env);
      if CloseCount(RunTrace(env)) == 2 {
        LoopClosesTwice(env);
        RemapTail(env);
      }
    }
  }

  /** A run of `RemapFails` ends with `DoubleClose`. */
  lemma RemapTail(env: Env)
    requires WellFormed(env) && RemapFails(env)
    ensures EndsWith(RunTrace(env), DoubleClose(env.openResult))
  {
    PhaseDoubleClose(env, Resolve(CartType(env), RamCode(env)).value);
    RunPartsEnds(env, DoubleClose(env.openResult));
  }

  /** The bank phase of a run of `RemapFails` ends with `DoubleClose`. */
  lemma PhaseDoubleClose(env: Env, g: Geometry)
    requires WellFormed(env) && Resolve(CartType(env), RamCode(env)) == Some(g) && env.openResult != 0
    requires CartType(env) == MBC1_RAM_BATT ==> env.mapOk(1)
    requires AllMapsOk(env, LoopStart(CartType(env)), LoopMaps(env)) && !env.mapOk(LoopStart(CartType(env)) + LoopMaps(env))
    ensures |Phase(env)| > 0 && EndsWith(Phase(env), DoubleClose(env.openResult))
  {
    var dev, ct := env.openResult, CartType(env);
    var first, n := LoopStart(ct), 2 * g.bankNum as nat;
    assert LoopMaps(env) == n;
    PhaseIsLoop(env, dev, g, ct);
    LoopDoubleClose(env, dev, g, first);
  }

  /** A bank loop whose maps all succeed, followed by a failed remap of
      region 0, ends with `DoubleClose`. */
  lemma LoopDoubleClose(env: Env, dev: int, g: Geometry, first: nat)
    requires WellFormed(env) && g.bankSize <= WINDOW_SIZE && dev != 0
    requires AllMapsOk(env, first, 2 * g.bankNum as nat) && !env.mapOk(first + 2 * g.bankNum as nat)
    ensures |Transfer(env, dev, g, first, 0)| > 0 && EndsWith(Transfer(env, dev, g, first, 0), DoubleClose(dev))
  {
    assert 2 * (g.bankNum as nat - 0) == 2 * g.bankNum as nat;
    TransferTail(env, dev, g, first, 0);
    FailedFinish(env, dev, LastMap(g, first, 0));
  }

  /** The runs that close the UART twice: the UART opens as a non-zero
      descriptor, the type is supported, every map up to the bank loop's
      last one succeeds, and the cleanup's remap of region 0 fails. */
  ghost predicate RemapFails(env: Env)
    requires WellFormed(env)
  {
    env.openResult > 0 && env.mapOk(0) && Resolve(CartType(env), RamCode(env)).Some? &&
    (CartType(env) == MBC1_RAM_BATT ==> env.mapOk(1)) &&
    AllMapsOk(env, LoopStart(CartType(env)), LoopMaps(env)) && !env.mapOk(LoopStart(CartType(env)) + LoopMaps(env))
  }

  /** The index of the bank loop's first map: after the header map and,
      for MBC1, the banking-mode map. */
  function LoopStart(cartType: byte): nat {
    if cartType == MBC1_RAM_BATT then 2 else 1
  }

  /** Once the RAM is enabled, the rest of a run that reaches the bank
      loop is the loop and cleanup. */
  lemma PhaseIsLoop(env: Env, dev: int, g: Geometry, cartType: byte)
    requires WellFormed(env) && g.bankSize <= WINDOW_SIZE
    requires cartType == MBC1_RAM_BATT ==> env.mapOk(1)
    ensures BankPhase(env, dev, g, cartType) == Transfer(env, dev, g, LoopStart(cartType), 0)
  {
  }

  /** The closes of a run that got past the header map with a supported
      type are those of enabling the RAM and of the bank phase. */
  lemma RunCloseParts(env: Env)
    requires WellFormed(env) && env.openResult >= 0 && env.mapOk(0)
    requires Resolve(CartType(env), RamCode(env)).Some?
    ensures CloseCount(RunTrace(env)) == CloseCount(EnableRamEvents(env, env.openResult, CartType(env), 1)) + CloseCount(Phase(env))
  {
    var dev, ct, g := env.openResult, CartType(env), Resolve(CartType(env), RamCode(env)).value;
    var start := [Open(dev), Map(ROM_REGION, true)];
    var enable, phase := EnableRamEvents(env, dev, ct, 1), BankPhase(env, dev, g, ct);
    RunParts(env);
    ConcatCounts(start, enable + phase);
    ConcatCounts(enable, phase);
    ConcatCounts([Open(dev)], [Map(ROM_REGION, true)]);
    assert start == [Open(dev)] + [Map(ROM_REGION, true)];
    Single(env, false, Reset, Open(dev));
    Single(env, false, Reset, Map(ROM_REGION, true));
  }

  /** The number of `map` calls of the bank loop: two per bank. */
  function LoopMaps(env: Env): nat
    requires WellFormed(env)
  {
    match Resolve(CartType(env), RamCode(env))
    case None => 0
    case Some(g) => 2 * g.bankNum as nat
  }

  /** `LoopMaps` for a supported geometry `g`. */
  lemma LoopMapsOf(env: Env, g: Geometry)
    requires WellFormed(env) && Resolve(CartType(env), RamCode(env)) == Some(g)
    ensures LoopMaps(env) == 2 * g.bankNum as nat
  {
  }

  /** The closes of the bank phase of a run that reaches the bank loop. */
  lemma PhaseCloses(env: Env, dev: int, g: Geometry, cartType: byte)
    requires WellFormed(env) && g.bankSize <= WINDOW_SIZE
    requires cartType == MBC1_RAM_BATT ==> env.mapOk(1)
    ensures CloseCount(BankPhase(env, dev, g, cartType)) ==
              LoopCloses(AllMapsOk(env, LoopStart(cartType), 2 * g.bankNum as nat), env.mapOk(LoopStart(cartType) + 2 * g.bankNum as nat), dev)
  {
    PhaseIsLoop(env, dev, g, cartType);
    assert 2 * (g.bankNum as nat - 0) == 2 * g.bankNum as nat;
    TransferCloses(env, dev, g, LoopStart(cartType), 0);
  }

  /** The closes of a run that reaches the bank loop are those of the
      loop and cleanup. */
  lemma RunLoopCloses(env: Env)
    requires WellFormed(env) && env.openResult >= 0 && env.mapOk(0)
    requires Resolve(CartType(env), RamCode(env)).Some?
    requires CartType(env) == MBC1_RAM_BATT ==> env.mapOk(1)
    ensures CloseCount(RunTrace(env)) == LoopCloses(AllMapsOk(env, LoopStart(CartType(env)), LoopMaps(env)),
                                                    env.mapOk(LoopStart(CartType(env)) + LoopMaps(env)), env.openResult)
  {
    RunCloseParts(env);
    EnableEffects(env, env.openResult, CartType(env), 1);
    PhaseLoopCloses(env, Resolve(CartType(env), RamCode(env)).value);
  }

  /** `PhaseCloses` for the bank phase of `env`. */
  lemma PhaseLoopCloses(env: Env, g: Geometry)
    requires WellFormed(env) && Resolve(CartType(env), RamCode(env)) == Some(g)
    requires CartType(env) == MBC1_RAM_BATT ==> env.mapOk(1)
    ensures CloseCount(Phase(env)) == LoopCloses(AllMapsOk(env, LoopStart(CartType(env)), LoopMaps(env)),
                                                 env.mapOk(LoopStart(CartType(env)) + LoopMaps(env)), env.openResult)
  {
    LoopMapsOf(env, g);
    assert Phase(env) == BankPhase(env, env.openResult, g, CartType(env));
    PhaseCloses(env, env.openResult, g, CartType(env));
  }

  /** `main` closes the UART twice exactly in the runs `RemapFails` names. */
  lemma ClosesTwiceIff(env: Env)
    requires WellFormed(env)
    ensures CloseCount(RunTrace(env)) == 2 <==> RemapFails(env)
  {
    var ct := CartType(env);
    if env.openResult < 0 || !env.mapOk(0) || Resolve(ct, RamCode(env)).None? {
      EarlyExitCloses(env);
      EarlyNoRemap(env);
    } else if ct == MBC1_RAM_BATT && !env.mapOk(1) {
      MbcFailureCloses(env);
    } else {
      LoopClosesTwice(env);
    }
  }

  /** A run that stops before enabling the RAM is not one of `RemapFails`. */
  lemma EarlyNoRemap(env: Env)
    requires WellFormed(env)
    requires env.openResult < 0 || !env.mapOk(0) || Resolve(CartType(env), RamCode(env)).None?
    ensures !RemapFails(env)
  {
  }

  /** `ClosesTwiceIff` for the runs that reach the bank loop. */
  lemma LoopClosesTwice(env: Env)
    requires WellFormed(env) && env.openResult >= 0 && env.mapOk(0)
    requires Resolve(CartType(env), RamCode(env)).Some?
    requires CartType(env) == MBC1_RAM_BATT ==> env.mapOk(1)
    ensures CloseCount(RunTrace(env)) == 2 <==> RemapFails(env)
  {
    RunLoopCloses(env);
  }

  /** A run whose MBC1 banking-mode map fails closes the UART at most once. */
  lemma MbcFailureCloses(env: Env)
    requires WellFormed(env) && env.openResult >= 0 && env.mapOk(0)
    requires Resolve(CartType(env), RamCode(env)).Some?
    requires CartType(env) == MBC1_RAM_BATT && !env.mapOk(1)
    ensures CloseCount(RunTrace(env)) <= 1
  {
    RunCloseParts(env);
    EnableEffects(env, env.openResult, CartType(env), 1);
    assert Phase(env) == [];
  }

  /** A normal run closes the UART exactly once. */
  lemma NormalClosesOnce(env: Env)
    requires WellFormed(env) && Normal(env)
    ensures CloseCount(RunTrace(env)) == 1
  {
    NormalLoop(env);
    RunLoopCloses(env);
  }

  /** A run that stops before enabling the RAM closes the UART at most
      once and is not normal. */
  lemma EarlyExitCloses(env: Env)
    requires WellFormed(env)
    requires env.openResult < 0 || !env.mapOk(0) || Resolve(CartType(env), RamCode(env)).None?
    ensures CloseCount(RunTrace(env)) <= 1 && !Normal(env)
  {
    var dev := env.openResult;
    var t := RunTrace(env);
    if dev < 0 {
      ConcatCounts([Open(dev)], [Exit]);
      assert t == [Open(dev)] + [Exit];
      Single(env, false, Reset, Open(dev));
      Single(env, false, Reset, Exit);
      return;
    }
    var head := MapEvents(env, dev, 0, ROM_REGION);
    MapPiece(env, false, Reset, dev, 0, ROM_REGION);
    ConcatCounts([Open(dev)], head);
    Single(env, false, Reset, Open(dev));
    if !env.mapOk(0) {
      assert t == [Open(dev)] + head + [];
      assert [Open(dev)] + head + [] == [Open(dev)] + head;
      return;
    }
    assert t == ([Open(dev)] + head) + [Exit];
    ConcatCounts([Open(dev)] + head, [Exit]);
    Single(env, false, Reset, Exit);
  }

  /** The UART opens, the type is supported and every map up to the bank
      loop's last one succeeds; the remap of region 0 after the loop may
      fail. */
  ghost predicate LoopRuns(env: Env)
    requires WellFormed(env)
  {
    env.openResult >= 0 && env.mapOk(0) && Resolve(CartType(env), RamCode(env)).Some? &&
    (CartType(env) == MBC1_RAM_BATT ==> env.mapOk(1)) &&
    AllMapsOk(env, LoopStart(CartType(env)), LoopMaps(env))
  }

  /** When every map of the bank loop succeeds, the UART receives `Sent`:
      the image of every bank whose write succeeds, in ascending bank
      order. */
  lemma RunChunks(env: Env)
    requires WellFormed(env) && LoopRuns(env)
    ensures Chunks(RunTrace(env)) == Sent(env, Resolve(CartType(env), RamCode(env)).value, 0)
  {
    RunChunkParts(env);
    PhaseChunks(env, Resolve(CartType(env), RamCode(env)).value);
  }

  /** The UART receives `Sent` from a bank phase whose loop maps all
      succeed. */
  lemma PhaseChunks(env: Env, g: Geometry)
    requires WellFormed(env) && Resolve(CartType(env), RamCode(env)) == Some(g)
    requires CartType(env) == MBC1_RAM_BATT ==> env.mapOk(1)
    requires AllMapsOk(env, LoopStart(CartType(env)), LoopMaps(env))
    ensures Chunks(Phase(env)) == Sent(env, g, 0)
  {
    var dev, ct := env.openResult, CartType(env);
    var first, n := LoopStart(ct), 2 * g.bankNum as nat;
    assert LoopMaps(env) == n;
    PhaseIsLoop(env, dev, g, ct);
    assert 2 * (g.bankNum as nat - 0) == n;
    TransferChunks(env, dev, g, first, 0);
  }

  /** The UART writes of a run that got past the header map with a
      supported type are those of the bank phase. */
  lemma RunChunkParts(env: Env)
    requires WellFormed(env) && env.openResult >= 0 && env.mapOk(0)
    requires Resolve(CartType(env), RamCode(env)).Some?
    ensures Chunks(RunTrace(env)) == Chunks(Phase(env))
  {
    var dev, ct := env.openResult, CartType(env);
    var start := [Open(dev), Map(ROM_REGION, true)];
    var enable := EnableRamEvents(env, dev, ct, 1);
    RunParts(env);
    EnableEffects(env, dev, ct, 1);
    ConcatCounts(start, enable + Phase(env));
    ConcatCounts(enable, Phase(env));
    ConcatCounts([Open(dev)], [Map(ROM_REGION, true)]);
    assert start == [Open(dev)] + [Map(ROM_REGION, true)];
    Single(env, false, Reset, Open(dev));
    Single(env, false, Reset, Map(ROM_REGION, true));
  }

  /** With every write succeeding, `Sent` is the image of each bank in
      turn. */
  lemma {:induction false} SentAll(env: Env, g: Geometry, bank: nat)
    requires WellFormed(env) && g.bankSize <= WINDOW_SIZE && bank <= g.bankNum as nat
    requires forall b: nat :: bank <= b < g.bankNum as nat ==> env.writeOk(b)
    ensures |Sent(env, g, bank)| == g.bankNum as nat - bank
    ensures forall i :: 0 <= i < |Sent(env, g, bank)| ==> Sent(env, g, bank)[i] == BankImage(env, g, bank + i)
    decreases g.bankNum as int - bank
  {
    if bank < g.bankNum as nat {
      var rest := Sent(env, g, bank + 1);
      SentAll(env, g, bank + 1);
      assert Sent(env, g, bank) == [BankImage(env, g, bank)] + rest;
    }
  }

  /** Chunks of `size` bytes each flatten to `|chunks| * size` bytes. */
  lemma {:induction false} FlattenLength(chunks: seq<seq<byte>>, size: nat)
    requires forall i :: 0 <= i < |chunks| ==> |chunks[i]| == size
    ensures |Flatten(chunks)| == |chunks| * size
    decreases |chunks|
  {
    if chunks != [] {
      FlattenLength(chunks[1..], size);
      assert |chunks| * size == size + (|chunks| - 1) * size;
    }
  }

  /** With every write succeeding, `Sent` from bank 0 is each bank's
      image in order, `bank_num * bank_size` bytes in all. */
  lemma SentEveryBank(env: Env, g: Geometry)
    requires WellFormed(env) && g.bankSize <= WINDOW_SIZE
    requires forall b: nat :: b < g.bankNum as nat ==> env.writeOk(b)
    ensures |Sent(env, g, 0)| == g.bankNum as nat
    ensures forall i :: 0 <= i < |Sent(env, g, 0)| ==> Sent(env, g, 0)[i] == BankImage(env, g, i)
    ensures |Flatten(Sent(env, g, 0))| == g.bankNum as nat * g.bankSize
  {
    SentAll(env, g, 0);
    FlattenLength(Sent(env, g, 0), g.bankSize);
  }

  /** With every map of the bank loop and every write succeeding, the
      UART receives exactly `bank_num` chunks, chunk `i` being bank `i`'s
      `bank_size` bytes, `bank_num * bank_size` bytes in all. */
  lemma AllBanksDelivered(env: Env)
    requires WellFormed(env) && LoopRuns(env)
    requires forall b: nat :: b < Resolve(CartType(env), RamCode(env)).value.bankNum as nat ==> env.writeOk(b)
    ensures var g, chunks := Resolve(CartType(env), RamCode(env)).value, Chunks(RunTrace(env));
      |chunks| == g.bankNum as nat &&
      (forall i :: 0 <= i < |chunks| ==> chunks[i] == BankImage(env, g, i)) &&
      |Flatten(chunks)| == g.bankNum as nat * g.bankSize
  {
    RunChunks(env);
    SentEveryBank(env, Resolve(CartType(env), RamCode(env)).value);
  }

  /** The result of a UART write changes neither whether `main` returns 0
      nor whether it closes the UART twice: two environments that differ
      only in `writeOk` agree on both. */
  lemma WriteResultsIgnored(env: Env, other: Env)
    requires WellFormed(env) && other == env.(writeOk := other.writeOk)
    ensures Completed(RunTrace(other)) == Completed(RunTrace(env))
    ensures (CloseCount(RunTrace(other)) == 2) == (CloseCount(RunTrace(env)) == 2)
  {
    SameMaps(env, other);
    RunEnds(env);
    RunEnds(other);
    ClosesTwiceIff(env);
    ClosesTwiceIff(other);
  }

  /** `Normal` and `RemapFails` depend on the results of `open` and `map`
      and on the header only. */
  lemma SameMaps(env: Env, other: Env)
    requires WellFormed(env) && other == env.(writeOk := other.writeOk)
    ensures WellFormed(other)
    ensures Normal(other) == Normal(env) && RemapFails(other) == RemapFails(env)
  {
    assert CartType(other) == CartType(env) && RamCode(other) == RamCode(env);
    assert LoopMaps(other) == LoopMaps(env);
    var g := Resolve(CartType(env), RamCode(env));
    if g.Some? {
      var first := LoopStart(CartType(env));
      SameLoopMaps(env, other, 0, TotalMaps(CartType(env), g.value));
      SameLoopMaps(env, other, first, LoopMaps(env));
    }
  }

  lemma {:induction false} SameLoopMaps(env: Env, other: Env, from: nat, n: nat)
    requires env.mapOk == other.mapOk
    ensures AllMapsOk(other, from, n) == AllMapsOk(env, from, n)
    decreases n
  {
    if n > 0 {
      SameLoopMaps(env, other, from + 1, n - 1);
    }
  }

  /** An unsupported cartridge type exits right after the header map,
      without any cartridge write, UART data or `close`: the UART is left
      open. */
  lemma UnsupportedLeavesUartOpen(env: Env)
    requires WellFormed(env) && env.openResult >= 0 && env.mapOk(0)
    requires !IsSupported(CartType(env))
    ensures RunTrace(env) == [Open(env.openResult), Map(ROM_REGION, true), Exit]
    ensures CloseCount(RunTrace(env)) == 0
  {
    var dev := env.openResult;
    assert RunTrace(env) == [Open(dev)] + [Map(ROM_REGION, true)] + [Exit];
    ConcatCounts([Open(dev)], [Map(ROM_REGION, true)]);
    ConcatCounts([Open(dev)] + [Map(ROM_REGION, true)], [Exit]);
    Single(env, false, Reset, Open(dev));
    Single(env, false, Reset, Map(ROM_REGION, true));
    Single(env, false, Reset, Exit);
  }

  /** The single-bank MBC2 type still selects bank 0 through
      `map_cart_sram`: after the RAM-enable write it maps region 0x4000
      and writes 0 there. */
  lemma SingleBankStillSelects(env: Env)
    requires WellFormed(env) && env.openResult >= 0 && env.mapOk(0)
    requires CartType(env) == MBC2_RAM_BATT
    ensures Resolve(CartType(env), RamCode(env)) == Some(Geometry(1, MBC2_RAM_SIZE))
    ensures var t := RunTrace(env);
      |t| > 4 && t[2] == CartWrite(ROM_REGION, 0, RAM_ENABLE) && t[3] == Map(CONTROL_REGION, env.mapOk(1)) &&
      (env.mapOk(1) ==> |t| > 5 && t[4] == CartWrite(CONTROL_REGION, 0, 0))
  {
    var dev := env.openResult;
    var g := Geometry(1, MBC2_RAM_SIZE);
    RunParts(env);
    assert EnableRamEvents(env, dev, MBC2_RAM_BATT, 1) == [CartWrite(ROM_REGION, 0, RAM_ENABLE)];
    SelectFront(env, dev, g, 1, 0);
  }

  /** The loop's first round starts with `map_cart_sram`'s map of region
      0x4000 and, when it succeeds, the write of the bank index. */
  lemma SelectFront(env: Env, dev: int, g: Geometry, call: nat, bank: nat)
    requires WellFormed(env) && g.bankSize <= WINDOW_SIZE && bank < g.bankNum as nat
    ensures |Transfer(env, dev, g, call, bank)| > 1
    ensures Transfer(env, dev, g, call, bank)[0] == Map(CONTROL_REGION, env.mapOk(call))
    ensures env.mapOk(call) ==> Transfer(env, dev, g, call, bank)[1] == CartWrite(CONTROL_REGION, 0, (bank % 16) as byte)
  {
    TransferStep(env, dev, g, call, bank);
    var round := Round(env, dev, g, call, bank);
    var select := SelectBank(env, dev, call, (bank % 16) as byte);
    assert |round| >= |select| && round[0] == select[0] && (|select| > 1 ==> round[1] == select[1]);
  }

  /** A run in which only the cleanup's remap of region 0 fails: an MBC2
      cartridge, UART device 1, map call 3 failing. `main` closes the
      UART twice. */
  lemma DoubleCloseWitness()
    ensures var env := Env(1, (k: nat) => k != 3, (b: nat) => true,
                           seq(WINDOW_SIZE, (i: int) => if i == TYPE_OFFSET then MBC2_RAM_BATT else 0),
                           (r: byte) => seq(WINDOW_SIZE, (i: int) => 0 as byte));
      WellFormed(env) && CloseCount(RunTrace(env)) == 2 && EndsWith(RunTrace(env), DoubleClose(1))
  {
    var env := Env(1, (k: nat) => k != 3, (b: nat) => true,
                   seq(WINDOW_SIZE, (i: int) => if i == TYPE_OFFSET then MBC2_RAM_BATT else 0),
                   (r: byte) => seq(WINDOW_SIZE, (i: int) => 0 as byte));
    assert CartType(env) == MBC2_RAM_BATT;
    assert Resolve(CartType(env), RamCode(env)) == Some(Geometry(1, MBC2_RAM_SIZE));
    assert AllMapsOk(env, 1, 2) && !env.mapOk(3);
    assert RemapFails(env);
    ClosesTwiceIff(env);
    RemapTail(env);
  }
}

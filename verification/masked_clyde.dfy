/**
 * Masked Clyde-128 (`clyde128_encrypt_masked`): the cipher of module Clyde
 * computed on sharings, drawing its randomness one word at a time from the
 * PRNG tuple `seed_tmp`. The main results: unmasking commutes with every
 * layer and with the whole cipher, the cipher fails exactly when an SNI
 * refresh is asked for at order nine or more, and it consumes an exact
 * number of random words.
 */
module MaskedClyde {
  import opened Words
  import opened WordLaws
  import opened Gadgets
  import opened Sharing
  import opened Prng
  import opened MaskedState
  import opened Clyde

  /** Words one `mult_shares` draws at order d: one per pair of shares. */
  function MultDraws(d: nat): nat
  {
    d * (d - 1) / 2
  }

  /** `mult_shares` with its draws taken from the tape. */
  function MultMasked(p: Params, a: seq<Word>, b: seq<Word>, t: Tape): (r: (seq<Word>, Tape))
    requires |a| == |b|
    ensures |r.0| == |a|
    ensures Secret(r.0) == And(Secret(a), Secret(b))
    ensures r.1 == Skip(p.shadow, t, MultDraws(|a|))
  {
    var drawn := Draws(p, t, MultDraws(|a|));
    DrawsAtOnce(p, t, MultDraws(|a|));
    MultSharesUnmask(a, b, drawn.0);
    (MultShares(Bits, a, b, drawn.0), drawn.1)
  }

  /** `refresh` with its draws taken from the tape; from nine shares on it fails before drawing. */
  function RefreshMasked(p: Params, s: seq<Word>, t: Tape): (r: Result<(seq<Word>, Tape)>)
    ensures r.Failure? <==> |s| >= 9
    ensures r.Failure? ==> r.error == RefreshOrderUnsupported(|s|)
    ensures r.Success? ==> |r.value.0| == |s| && Secret(r.value.0) == Secret(s)
    ensures r.Success? ==> r.value.1 == Skip(p.shadow, t, RefreshDraws(|s|))
  {
    var drawn := Draws(p, t, RefreshDraws(|s|));
    DrawsAtOnce(p, t, RefreshDraws(|s|));
    RefreshUnmask(s, drawn.0);
    var refreshed := Refresh(Bits, s, drawn.0);
    if refreshed.Failure? then Failure(refreshed.error) else Success((refreshed.value, drawn.1))
  }

  // ---------------------------------------------------------------------
  // S-box layer
  // ---------------------------------------------------------------------

  /** Words one masked S-box layer draws: four multiplications and, with the flag, one refresh. */
  function SboxDraws(d: nat, refresh: bool): nat
  {
    4 * MultDraws(d) + (if refresh then RefreshDraws(d) else 0)
  }

  /**
   * The S-box after y1 is known: y0 = da + b, y3 = y1 d + a, c = y0 y1 + d,
   * each product a masked multiplication.
   */
  function SboxTail(p: Params, m: MaskedBlock, y1: seq<Word>, t: Tape): (r: (MaskedBlock, Tape))
    requires HasOrder(m, p.d) && |y1| == p.d
    ensures HasOrder(r.0, p.d)
  {
    var t0 := MultMasked(p, m.x3, m.x0, t);
    var y0 := AddShares(Bits, t0.0, m.x1);
    var t1 := MultMasked(p, y1, m.x3, t0.1);
    var y3 := AddShares(Bits, t1.0, m.x0);
    var t2 := MultMasked(p, y0, y1, t1.1);
    var c := AddShares(Bits, t2.0, m.x3);
    (MaskedBlock(y0, y1, c, y3), t2.1)
  }

  /** When y1 shares ab + c, the rest of the masked S-box shares the S-box output. */
  lemma SboxTailUnmask(p: Params, m: MaskedBlock, y1: seq<Word>, t: Tape)
    requires HasOrder(m, p.d) && |y1| == p.d
    requires Secret(y1) == Xor(And(Secret(m.x0), Secret(m.x1)), Secret(m.x2))
    ensures Unmask(SboxTail(p, m, y1, t).0) == SBox(Unmask(m))
  {
    hide MultMasked;
    var t0 := MultMasked(p, m.x3, m.x0, t);
    var y0 := AddShares(Bits, t0.0, m.x1);
    var t1 := MultMasked(p, y1, m.x3, t0.1);
    var t2 := MultMasked(p, y0, y1, t1.1);
    AddSharesUnmask(t0.0, m.x1);
    AddSharesUnmask(t1.0, m.x0);
    AddSharesUnmask(t2.0, m.x3);
  }

  /** The rest of the S-box draws three multiplications' worth of words. */
  lemma SboxTailCost(p: Params, m: MaskedBlock, y1: seq<Word>, t: Tape)
    requires HasOrder(m, p.d) && |y1| == p.d
    ensures SboxTail(p, m, y1, t).1 == Skip(p.shadow, t, 3 * MultDraws(p.d))
  {
    hide MultMasked;
    var t0 := MultMasked(p, m.x3, m.x0, t);
    var y0 := AddShares(Bits, t0.0, m.x1);
    var t1 := MultMasked(p, y1, m.x3, t0.1);
    var t2 := MultMasked(p, y0, y1, t1.1);
    var n := MultDraws(p.d);
    SkipChain(p.shadow, t, t0.1, t1.1, t2.1, n, n, n, 3 * n);
  }

  /**
   * `sbox_layer_masked`: y1 = ab + c, refreshed when the flag is set, then
   * the rest of the S-box. It fails only when the refresh does.
   */
  function SboxLayerMasked(p: Params, m: MaskedBlock, t: Tape, refresh: bool): (r: Result<(MaskedBlock, Tape)>)
    requires HasOrder(m, p.d)
    ensures r.Failure? <==> refresh && p.d >= 9
    ensures r.Failure? ==> r.error == RefreshOrderUnsupported(p.d)
    ensures r.Success? ==> HasOrder(r.value.0, p.d)
  {
    var first := MultMasked(p, m.x0, m.x1, t);
    var y1 := AddShares(Bits, first.0, m.x2);
    if refresh then
      var refreshed := RefreshMasked(p, y1, first.1);
      if refreshed.Failure? then Failure(refreshed.error)
      else Success(SboxTail(p, m, refreshed.value.0, refreshed.value.1))
    else
      Success(SboxTail(p, m, y1, first.1))
  }

  /** Unmasking commutes with the masked S-box layer, with or without the refresh. */
  lemma SboxLayerUnmask(p: Params, m: MaskedBlock, t: Tape, refresh: bool)
    requires HasOrder(m, p.d)
    ensures var r := SboxLayerMasked(p, m, t, refresh);
            r.Success? ==> Unmask(r.value.0) == SBox(Unmask(m))
  {
    hide SboxTail, MultMasked, RefreshMasked;
    var first := MultMasked(p, m.x0, m.x1, t);
    var y1 := AddShares(Bits, first.0, m.x2);
    AddSharesUnmask(first.0, m.x2);
    if refresh {
      var refreshed := RefreshMasked(p, y1, first.1);
      if refreshed.Success? {
        SboxTailUnmask(p, m, refreshed.value.0, refreshed.value.1);
      }
    } else {
      SboxTailUnmask(p, m, y1, first.1);
    }
  }

  /** The masked S-box layer draws `SboxDraws` words. */
  lemma SboxLayerCost(p: Params, m: MaskedBlock, t: Tape, refresh: bool)
    requires HasOrder(m, p.d)
    ensures var r := SboxLayerMasked(p, m, t, refresh);
            r.Success? ==> r.value.1 == Skip(p.shadow, t, SboxDraws(p.d, refresh))
  {
    hide SboxTail, MultMasked, RefreshMasked;
    var first := MultMasked(p, m.x0, m.x1, t);
    var y1 := AddShares(Bits, first.0, m.x2);
    if refresh {
      var refreshed := RefreshMasked(p, y1, first.1);
      if refreshed.Success? {
        var tail := SboxTail(p, m, refreshed.value.0, refreshed.value.1);
        SboxTailCost(p, m, refreshed.value.0, refreshed.value.1);
        SkipChain(p.shadow, t, first.1, refreshed.value.1, tail.1, MultDraws(p.d), RefreshDraws(p.d), 3 * MultDraws(p.d), SboxDraws(p.d, true));
      }
    } else {
      var tail := SboxTail(p, m, y1, first.1);
      SboxTailCost(p, m, y1, first.1);
      SkipChain(p.shadow, t, first.1, tail.1, tail.1, MultDraws(p.d), 3 * MultDraws(p.d), 0, SboxDraws(p.d, false));
    }
  }

  // ---------------------------------------------------------------------
  // Linear layers
  // ---------------------------------------------------------------------

  /** `lbox_masked`: the L-box applied share by share to lanes (0, 1) and (2, 3). */
  function LBoxMasked(m: MaskedBlock, d: nat): (r: MaskedBlock)
    requires HasOrder(m, d)
    ensures HasOrder(r, d)
    ensures forall j | 0 <= j < d :: (r.x0[j], r.x1[j]) == LBox(m.x0[j], m.x1[j]) && (r.x2[j], r.x3[j]) == LBox(m.x2[j], m.x3[j])
    ensures Unmask(r) == LBoxLayer(Unmask(m))
  {
    LBoxLeftAdditive();
    LBoxRightAdditive();
    MapPairsFold(Bits, LBoxLeft, m.x0, m.x1);
    MapPairsFold(Bits, LBoxRight, m.x0, m.x1);
    MapPairsFold(Bits, LBoxLeft, m.x2, m.x3);
    MapPairsFold(Bits, LBoxRight, m.x2, m.x3);
    MaskedBlock(MapPairs(LBoxLeft, m.x0, m.x1), MapPairs(LBoxRight, m.x0, m.x1),
                MapPairs(LBoxLeft, m.x2, m.x3), MapPairs(LBoxRight, m.x2, m.x3))
  }

  /** The L-box layer followed by `XORCST_MASK`, which adds the round constant to share 0. */
  function LinearMasked(m: MaskedBlock, l: Lfsr, d: nat): (r: MaskedBlock)
    requires HasOrder(m, d) && d >= 1
    ensures HasOrder(r, d)
    ensures Unmask(r) == XorBlock(LBoxLayer(Unmask(m)), RoundConstant(l))
  {
    var lb := LBoxMasked(m, d);
    XorPublicUnmask(lb, RoundConstant(l), d);
    XorPublic(lb, RoundConstant(l), d)
  }

  // ---------------------------------------------------------------------
  // Rounds
  // ---------------------------------------------------------------------

  /** Words a full round draws: a refreshed and a plain S-box layer. */
  function RoundDraws(d: nat): nat
  {
    SboxDraws(d, true) + SboxDraws(d, false)
  }

  /** Words the last round draws: only the refreshed S-box layer when `step` is 0. */
  function LastRoundDraws(d: nat, step: nat): nat
  {
    if step == 0 then SboxDraws(d, true) else RoundDraws(d)
  }

  /** Words drawn by the k remaining rounds. */
  function RoundsDraws(d: nat, k: nat, step: nat): nat
  {
    if k == 0 then 0 else if k == 1 then LastRoundDraws(d, step) else RoundDraws(d) + RoundsDraws(d, k - 1, step)
  }

  /** One step of a round: a masked S-box layer, then the L-box and the round constant of register l. */
  function StepMasked(p: Params, m: MaskedBlock, t: Tape, refresh: bool, l: Lfsr): (r: Result<(MaskedBlock, Tape)>)
    requires HasOrder(m, p.d) && p.d >= 1
    ensures r.Failure? <==> refresh && p.d >= 9
    ensures r.Failure? ==> r.error == RefreshOrderUnsupported(p.d)
    ensures r.Success? ==> HasOrder(r.value.0, p.d)
  {
    var sb := SboxLayerMasked(p, m, t, refresh);
    if sb.Failure? then Failure(sb.error) else Success((LinearMasked(sb.value.0, l, p.d), sb.value.1))
  }

  /** Unmasking commutes with a step. */
  lemma StepMaskedUnmask(p: Params, m: MaskedBlock, t: Tape, refresh: bool, l: Lfsr)
    requires HasOrder(m, p.d) && p.d >= 1
    ensures var r := StepMasked(p, m, t, refresh, l);
            r.Success? ==> Unmask(r.value.0) == Step(Unmask(m), l)
  {
    hide SboxLayerMasked, LinearMasked;
    SboxLayerUnmask(p, m, t, refresh);
  }

  /** A step draws the words of its S-box layer. */
  lemma StepMaskedCost(p: Params, m: MaskedBlock, t: Tape, refresh: bool, l: Lfsr)
    requires HasOrder(m, p.d) && p.d >= 1
    ensures var r := StepMasked(p, m, t, refresh, l);
            r.Success? ==> r.value.1 == Skip(p.shadow, t, SboxDraws(p.d, refresh))
  {
    hide SboxLayerMasked, LinearMasked;
    SboxLayerCost(p, m, t, refresh);
  }

  /**
   * One full masked round: a refreshed step with register l, a plain step
   * with its successor, then the masked key (`masked_state ^= key`) and the
   * tweak the shifted offset selects.
   */
  function FullRoundMasked(p: Params, m: MaskedBlock, key: MaskedBlock, tk: Tweaks, t: Tape, off: nat, l: Lfsr): (r: Result<(MaskedBlock, Tape)>)
    requires HasOrder(m, p.d) && HasOrder(key, p.d) && p.d >= 1 && Offset(off)
    ensures r.Failure? <==> p.d >= 9
    ensures r.Failure? ==> r.error == RefreshOrderUnsupported(p.d)
    ensures r.Success? ==> HasOrder(r.value.0, p.d)
  {
    var first := StepMasked(p, m, t, true, l);
    if first.Failure? then first
    else
      var second := StepMasked(p, first.value.0, first.value.1, false, LfsrNext(l));
      OffsetStep(off);
      Success((XorPublic(AddState(second.value.0, key, p.d), Tweak(tk, (off / 4) % 4), p.d), second.value.1))
  }

  /** Two successive steps compute two steps of the cipher on the unmasked state. */
  lemma TwoStepsUnmask(p: Params, m: MaskedBlock, t: Tape, l: Lfsr)
    requires HasOrder(m, p.d) && p.d >= 1
    ensures var first := StepMasked(p, m, t, true, l);
            first.Success? ==>
              var second := StepMasked(p, first.value.0, first.value.1, false, LfsrNext(l));
              second.Success? && Unmask(second.value.0) == Step(Step(Unmask(m), l), LfsrNext(l))
  {
    hide StepMasked;
    var first := StepMasked(p, m, t, true, l);
    StepMaskedUnmask(p, m, t, true, l);
    if first.Success? {
      StepMaskedUnmask(p, first.value.0, first.value.1, false, LfsrNext(l));
    }
  }

  /** Unmasking commutes with a full round. */
  lemma FullRoundUnmask(p: Params, m: MaskedBlock, key: MaskedBlock, tk: Tweaks, t: Tape, off: nat, l: Lfsr)
    requires HasOrder(m, p.d) && HasOrder(key, p.d) && p.d >= 1 && Offset(off)
    ensures var r := FullRoundMasked(p, m, key, tk, t, off, l);
            r.Success? ==> Unmask(r.value.0) == Round(Unmask(m), Unmask(key), tk, off, l)
  {
    hide StepMasked, SboxLayerMasked, LinearMasked;
    var first := StepMasked(p, m, t, true, l);
    TwoStepsUnmask(p, m, t, l);
    if first.Success? {
      var second := StepMasked(p, first.value.0, first.value.1, false, LfsrNext(l));
      OffsetStep(off);
      AddKeyTweakUnmask(second.value.0, key, Tweak(tk, (off / 4) % 4), p.d);
    }
  }

  /** A full round draws `RoundDraws` words. */
  lemma FullRoundCost(p: Params, m: MaskedBlock, key: MaskedBlock, tk: Tweaks, t: Tape, off: nat, l: Lfsr)
    requires HasOrder(m, p.d) && HasOrder(key, p.d) && p.d >= 1 && Offset(off)
    ensures var r := FullRoundMasked(p, m, key, tk, t, off, l);
            r.Success? ==> r.value.1 == Skip(p.shadow, t, RoundDraws(p.d))
  {
    hide StepMasked, SboxLayerMasked, LinearMasked;
    var first := StepMasked(p, m, t, true, l);
    StepMaskedCost(p, m, t, true, l);
    if first.Success? {
      var second := StepMasked(p, first.value.0, first.value.1, false, LfsrNext(l));
      StepMaskedCost(p, first.value.0, first.value.1, false, LfsrNext(l));
      SkipChain(p.shadow, t, first.value.1, second.value.1, second.value.1,
                SboxDraws(p.d, true), SboxDraws(p.d, false), 0, RoundDraws(p.d));
    }
  }

  /** The last round when the run stops inside it: after the first S-box layer (`step` 0) or the second (`step` 1). */
  function LastRoundMasked(p: Params, m: MaskedBlock, t: Tape, l: Lfsr, step: nat): (r: Result<(MaskedBlock, Tape)>)
    requires HasOrder(m, p.d) && p.d >= 1 && step < 2
    ensures r.Failure? <==> p.d >= 9
    ensures r.Failure? ==> r.error == RefreshOrderUnsupported(p.d)
    ensures r.Success? ==> HasOrder(r.value.0, p.d)
  {
    if step == 0 then SboxLayerMasked(p, m, t, true)
    else
      var first := StepMasked(p, m, t, true, l);
      if first.Failure? then first else SboxLayerMasked(p, first.value.0, first.value.1, false)
  }

  /** Unmasking commutes with a last, partial round. */
  lemma LastRoundUnmask(p: Params, m: MaskedBlock, t: Tape, l: Lfsr, step: nat)
    requires HasOrder(m, p.d) && p.d >= 1 && step < 2
    ensures var r := LastRoundMasked(p, m, t, l, step);
            r.Success? ==> Unmask(r.value.0) == (if step == 0 then SBox(Unmask(m)) else SBox(Step(Unmask(m), l)))
  {
    hide StepMasked, SboxLayerMasked;
    if step == 0 {
      SboxLayerUnmask(p, m, t, true);
    } else {
      var first := StepMasked(p, m, t, true, l);
      StepMaskedUnmask(p, m, t, true, l);
      if first.Success? {
        SboxLayerUnmask(p, first.value.0, first.value.1, false);
      }
    }
  }

  /** A last, partial round draws `LastRoundDraws` words. */
  lemma LastRoundCost(p: Params, m: MaskedBlock, t: Tape, l: Lfsr, step: nat)
    requires HasOrder(m, p.d) && p.d >= 1 && step < 2
    ensures var r := LastRoundMasked(p, m, t, l, step);
            r.Success? ==> r.value.1 == Skip(p.shadow, t, LastRoundDraws(p.d, step))
  {
    hide StepMasked, SboxLayerMasked;
    if step == 0 {
      SboxLayerCost(p, m, t, true);
    } else {
      var first := StepMasked(p, m, t, true, l);
      StepMaskedCost(p, m, t, true, l);
      if first.Success? {
        var second := SboxLayerMasked(p, first.value.0, first.value.1, false);
        SboxLayerCost(p, first.value.0, first.value.1, false);
        SkipChain(p.shadow, t, first.value.1, second.value.1, second.value.1,
                  SboxDraws(p.d, true), SboxDraws(p.d, false), 0, RoundDraws(p.d));
      }
    }
  }

  /** Rounds s .. nr - 1 of `clyde128_encrypt_masked` on a masked state. */
  function MaskedRounds(p: Params, m: MaskedBlock, key: MaskedBlock, tk: Tweaks, t: Tape,
                        s: nat, nr: nat, step: nat, off: nat, l: Lfsr): (r: Result<(MaskedBlock, Tape)>)
    requires HasOrder(m, p.d) && HasOrder(key, p.d) && p.d >= 1
    requires s <= nr && Offset(off)
    ensures r.Success? ==> HasOrder(r.value.0, p.d)
    decreases nr - s
  {
    if s == nr then Success((m, t))
    else if s == nr - 1 && step < 2 then LastRoundMasked(p, m, t, l, step)
    else
      var round := FullRoundMasked(p, m, key, tk, t, off, l);
      if round.Failure? then round
      else
        OffsetStep(off);
        MaskedRounds(p, round.value.0, key, tk, round.value.1, s + 1, nr, step, off / 4, LfsrNext(LfsrNext(l)))
  }

  /** The masked rounds fail exactly when a round is left and the order is nine or more. */
  lemma {:induction false} MaskedRoundsFail(p: Params, m: MaskedBlock, key: MaskedBlock, tk: Tweaks, t: Tape,
                                            s: nat, nr: nat, step: nat, off: nat, l: Lfsr)
    requires HasOrder(m, p.d) && HasOrder(key, p.d) && p.d >= 1
    requires s <= nr && Offset(off)
    ensures var r := MaskedRounds(p, m, key, tk, t, s, nr, step, off, l);
            (r.Failure? <==> s < nr && p.d >= 9) && (r.Failure? ==> r.error == RefreshOrderUnsupported(p.d))
    decreases nr - s
  {
    hide FullRoundMasked, LastRoundMasked;
    if s < nr && !(s == nr - 1 && step < 2) {
      var round := FullRoundMasked(p, m, key, tk, t, off, l);
      if round.Success? {
        OffsetStep(off);
        MaskedRoundsFail(p, round.value.0, key, tk, round.value.1, s + 1, nr, step, off / 4, LfsrNext(LfsrNext(l)));
      }
    }
  }

  /** Unmasking commutes with the masked rounds: they compute the rounds of the cipher on the unmasked state and key. */
  lemma {:induction false} MaskedRoundsUnmask(p: Params, m: MaskedBlock, key: MaskedBlock, tk: Tweaks, t: Tape,
                                              s: nat, nr: nat, step: nat, off: nat, l: Lfsr)
    requires HasOrder(m, p.d) && HasOrder(key, p.d) && p.d >= 1
    requires s <= nr && Offset(off)
    ensures var r := MaskedRounds(p, m, key, tk, t, s, nr, step, off, l);
            r.Success? ==> Unmask(r.value.0) == Rounds(Unmask(m), Unmask(key), tk, s, nr, step, off, l)
    decreases nr - s
  {
    hide FullRoundMasked, LastRoundMasked;
    if s == nr - 1 && step < 2 {
      LastRoundUnmask(p, m, t, l, step);
    } else if s < nr {
      var round := FullRoundMasked(p, m, key, tk, t, off, l);
      FullRoundUnmask(p, m, key, tk, t, off, l);
      if round.Success? {
        OffsetStep(off);
        MaskedRoundsUnmask(p, round.value.0, key, tk, round.value.1, s + 1, nr, step, off / 4, LfsrNext(LfsrNext(l)));
      }
    }
  }

  /** The masked rounds draw exactly `RoundsDraws` words. */
  lemma {:induction false} MaskedRoundsCost(p: Params, m: MaskedBlock, key: MaskedBlock, tk: Tweaks, t: Tape,
                                            s: nat, nr: nat, step: nat, off: nat, l: Lfsr)
    requires HasOrder(m, p.d) && HasOrder(key, p.d) && p.d >= 1
    requires s <= nr && Offset(off)
    ensures var r := MaskedRounds(p, m, key, tk, t, s, nr, step, off, l);
            r.Success? ==> r.value.1 == Skip(p.shadow, t, RoundsDraws(p.d, nr - s, step))
    decreases nr - s
  {
    hide FullRoundMasked, LastRoundMasked;
    if s == nr - 1 && step < 2 {
      LastRoundCost(p, m, t, l, step);
    } else if s < nr {
      var round := FullRoundMasked(p, m, key, tk, t, off, l);
      FullRoundCost(p, m, key, tk, t, off, l);
      if round.Success? {
        OffsetStep(off);
        var next := MaskedRounds(p, round.value.0, key, tk, round.value.1, s + 1, nr, step, off / 4, LfsrNext(LfsrNext(l)));
        MaskedRoundsCost(p, round.value.0, key, tk, round.value.1, s + 1, nr, step, off / 4, LfsrNext(LfsrNext(l)));
        if next.Success? {
          SkipChain(p.shadow, t, round.value.1, next.value.1, next.value.1,
                    RoundDraws(p.d), RoundsDraws(p.d, nr - s - 1, step), 0, RoundsDraws(p.d, nr - s, step));
        }
      }
    }
  }

  lemma CountStep(k: nat, r: nat)
    requires k > 1
    ensures (k - 1) * r == r + (k - 2) * r
  {
  }

  /** Rounds drawn in closed form: every round but the last draws `RoundDraws`. */
  lemma {:induction false} RoundsDrawsClosed(d: nat, k: nat, step: nat)
    requires k >= 1
    ensures RoundsDraws(d, k, step) == (k - 1) * RoundDraws(d) + LastRoundDraws(d, step)
  {
    hide RoundDraws, LastRoundDraws;
    if k > 1 {
      RoundsDrawsClosed(d, k - 1, step);
      CountStep(k, RoundDraws(d));
    }
  }

  // ---------------------------------------------------------------------
  // The cipher
  // ---------------------------------------------------------------------

  /** The masked starting state: the masked key with the first tweak and the plaintext added to share 0. */
  function InitialState(p: Params, state: Block, tk: Tweaks, key: seq<Word>): (m: MaskedBlock)
    requires |key| == 4 * p.d && p.d >= 1
    ensures HasOrder(m, p.d)
    ensures Unmask(m) == XorBlock(XorBlock(Umask(key, p.d), tk.tk0), state)
  {
    var k := Split(key, p.d);
    var m0 := XorPublic(k, tk.tk0, p.d);
    XorPublicUnmask(k, tk.tk0, p.d);
    XorPublicUnmask(m0, state, p.d);
    UmaskIsUnmask(key, p.d);
    XorPublic(m0, state, p.d)
  }

  /**
   * `clyde128_encrypt_masked(state, t, key, seed, Nr, step)` for one
   * execution: the rounds run on the masked starting state from offset
   * 0x924 and register 8. It returns the flat masked state and the tuple
   * `seed_tmp` holds afterwards.
   */
  function EncryptMasked(p: Params, state: Block, t: Block, key: seq<Word>, seed: Tape, nr: nat, step: nat): (r: Result<(seq<Word>, Tape)>)
    requires |key| == 4 * p.d && p.d >= 1
    ensures r.Success? ==> |r.value.0| == 4 * p.d
  {
    var tk := TweakSchedule(t);
    var rounds := MaskedRounds(p, InitialState(p, state, tk, key), Split(key, p.d), tk, seed, 0, nr, step, 0x924, 8);
    if rounds.Failure? then Failure(rounds.error) else Success((Flatten(rounds.value.0, p.d), rounds.value.1))
  }

  /** Masked Clyde-128 fails exactly when a round runs at order nine or more. */
  lemma EncryptMaskedFail(p: Params, state: Block, t: Block, key: seq<Word>, seed: Tape, nr: nat, step: nat)
    requires |key| == 4 * p.d && p.d >= 1
    ensures var r := EncryptMasked(p, state, t, key, seed, nr, step);
            (r.Failure? <==> nr > 0 && p.d >= 9) && (r.Failure? ==> r.error == RefreshOrderUnsupported(p.d))
  {
    hide MaskedRounds, FullRoundMasked, LastRoundMasked;
    var tk := TweakSchedule(t);
    MaskedRoundsFail(p, InitialState(p, state, tk, key), Split(key, p.d), tk, seed, 0, nr, step, 0x924, 8);
  }

  /**
   * Unmasking commutes with masked Clyde-128: when it succeeds, `umask` of
   * the result is Clyde-128 of the plaintext under `umask` of the masked key.
   */
  lemma EncryptMaskedUnmask(p: Params, state: Block, t: Block, key: seq<Word>, seed: Tape, nr: nat, step: nat)
    requires |key| == 4 * p.d && p.d >= 1
    ensures var r := EncryptMasked(p, state, t, key, seed, nr, step);
            r.Success? ==> Umask(r.value.0, p.d) == Encrypt(state, t, Umask(key, p.d), nr, step)
  {
    hide MaskedRounds, FullRoundMasked, LastRoundMasked;
    var tk := TweakSchedule(t);
    var m := InitialState(p, state, tk, key);
    var k := Split(key, p.d);
    var rounds := MaskedRounds(p, m, k, tk, seed, 0, nr, step, 0x924, 8);
    MaskedRoundsUnmask(p, m, k, tk, seed, 0, nr, step, 0x924, 8);
    UmaskIsUnmask(key, p.d);
    assert Unmask(m) == XorBlock(XorBlock(Unmask(k), t), state);
    if rounds.Success? {
      var out := Flatten(rounds.value.0, p.d);
      SplitFlatten(rounds.value.0, p.d);
      UmaskIsUnmask(out, p.d);
      assert EncryptMasked(p, state, t, key, seed, nr, step) == Success((out, rounds.value.1));
    }
  }

  /**
   * The randomness a masked encryption consumes is exact: the tape it
   * returns has moved on by `RoundsDraws` words (see `EncryptDrawsClosed`).
   */
  lemma EncryptMaskedCost(p: Params, state: Block, t: Block, key: seq<Word>, seed: Tape, nr: nat, step: nat)
    requires |key| == 4 * p.d && p.d >= 1
    ensures var r := EncryptMasked(p, state, t, key, seed, nr, step);
            r.Success? ==> r.value.1 == Skip(p.shadow, seed, RoundsDraws(p.d, nr, step))
  {
    hide MaskedRounds, FullRoundMasked, LastRoundMasked, Skip, RoundsDraws, InitialState, Flatten, Split, TweakSchedule;
    var tk := TweakSchedule(t);
    MaskedRoundsCost(p, InitialState(p, state, tk, key), Split(key, p.d), tk, seed, 0, nr, step, 0x924, 8);
  }

  /**
   * The words of an encryption in closed form: (nr - 1)(8T + R) for the full
   * rounds plus 4T + R or 8T + R for the last one, with T = D(D-1)/2 words
   * per multiplication and R the words of the refresh; no word without rounds.
   */
  lemma EncryptDrawsClosed(d: nat, nr: nat, step: nat)
    ensures nr == 0 ==> RoundsDraws(d, nr, step) == 0
    ensures nr > 0 ==> RoundsDraws(d, nr, step) == (nr - 1) * RoundDraws(d) + LastRoundDraws(d, step)
    ensures RoundDraws(d) == 8 * (d * (d - 1) / 2) + RefreshDraws(d)
    ensures LastRoundDraws(d, step) == if step == 0 then 4 * (d * (d - 1) / 2) + RefreshDraws(d) else RoundDraws(d)
  {
    if nr > 0 {
      RoundsDrawsClosed(d, nr, step);
    }
  }
}

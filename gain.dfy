/** The gain calculator and the rebirth price. The gain folds every catalog
    effect into a bonus, a multiplier and a critical chance; the random draw
    that decides a critical is the `sample` parameter. */
module Gain {
  import opened GameReducer
  import opened UpgradesConfig

  datatype Totals = Totals(bonus: real, multiplier: real, chance: real)

  /** The accumulators before any effect is seen. */
  const NoEffects: Totals := Totals(0.0, 1.0, 0.0)

  /** The critical factor applied when the sample falls below the chance. */
  const Critical: real := 2.5

  /** One step of the fold: click effects feed all three terms; an
      autoclicker additive feeds the bonus, less the implicit base of 1, and
      only for a passive tick; airdrop effects are ignored. */
  function ApplyEffect(t: Totals, e: Effect, auto: bool): Totals
  {
    if e.target == OnClick then
      Totals(
        if e.kind == Additive then t.bonus + e.value else t.bonus,
        if e.kind == Multiplier then t.multiplier * e.value else t.multiplier,
        if e.kind == Chance then t.chance + e.value else t.chance)
    else if e.target == OnAutoclicker && auto then
      if e.kind == Additive then t.(bonus := t.bonus + e.value - 1.0) else t
    else
      t
  }

  function AccumulateEffects(t: Totals, es: seq<Effect>, auto: bool): Totals
  {
    if es == [] then t
    else ApplyEffect(AccumulateEffects(t, es[..|es| - 1], auto), es[|es| - 1], auto)
  }

  /** The accumulators after visiting the entries `keys`, in order. */
  function AccumulateCatalog(keys: seq<UpgradeKey>, s: GameState, auto: bool): Totals
  {
    if keys == [] then NoEffects
    else AccumulateEffects(AccumulateCatalog(keys[..|keys| - 1], s, auto), GetEffects(keys[|keys| - 1], s), auto)
  }

  /** The gain of one manual click (`auto` false) or one passive tick (`auto`
      true), for the random draw `sample`. */
  function ClickGain(s: GameState, auto: bool, sample: real): real
  {
    var t := AccumulateCatalog(Catalog, s, auto);
    var multiplier := if s.rebirths > 0 then t.multiplier * (s.rebirths + 1) as real else t.multiplier;
    var gain := (1.0 + t.bonus) * multiplier;
    var gain' := if sample < t.chance then gain * Critical else gain;
    if auto && GetLevel(AutoClicker, s) == 0 then 0.0 else gain'
  }

  method CalculateClickGain(s: GameState, auto: bool, sample: real) returns (gain: real)
    ensures gain == ClickGain(s, auto, sample)
  {
    var base := 1.0;
    var bonus, multiplier, chance := FoldCatalog(Catalog, s, auto);
    if s.rebirths > 0 {
      multiplier := multiplier * (s.rebirths + 1) as real;
    }
    gain := (base + bonus) * multiplier;
    if sample < chance {
      gain := gain * Critical;
    }
    gain := if auto then (if GetLevel(AutoClicker, s) == 0 then 0.0 else gain) else gain;
  }

  /** The outer loop: every entry's effects, entry by entry. */
  method FoldCatalog(keys: seq<UpgradeKey>, s: GameState, auto: bool) returns (bonus: real, multiplier: real, chance: real)
    ensures Totals(bonus, multiplier, chance) == AccumulateCatalog(keys, s, auto)
  {
    bonus, multiplier, chance := 0.0, 1.0, 0.0;
    for i := 0 to |keys|
      invariant Totals(bonus, multiplier, chance) == AccumulateCatalog(keys[..i], s, auto)
    {
      bonus, multiplier, chance := FoldEffects(bonus, multiplier, chance, GetEffects(keys[i], s), auto);
      assert keys[..i + 1][..i] == keys[..i];
    }
    assert keys[..|keys|] == keys;
  }

  /** The inner loop: one entry's effects, in order, onto the accumulators. */
  method FoldEffects(bonus0: real, multiplier0: real, chance0: real, effects: seq<Effect>, auto: bool)
    returns (bonus: real, multiplier: real, chance: real)
    ensures Totals(bonus, multiplier, chance) == AccumulateEffects(Totals(bonus0, multiplier0, chance0), effects, auto)
  {
    bonus, multiplier, chance := bonus0, multiplier0, chance0;
    for j := 0 to |effects|
      invariant Totals(bonus, multiplier, chance) == AccumulateEffects(Totals(bonus0, multiplier0, chance0), effects[..j], auto)
    {
      var e := effects[j];
      ghost var t := Totals(bonus, multiplier, chance);
      if e.target == OnClick {
        if e.kind == Additive { bonus := bonus + e.value; }
        if e.kind == Multiplier { multiplier := multiplier * e.value; }
        if e.kind == Chance { chance := chance + e.value; }
      } else if e.target == OnAutoclicker && auto {
        if e.kind == Additive { bonus := bonus + e.value - 1.0; }
      }
      assert Totals(bonus, multiplier, chance) == ApplyEffect(t, e, auto);
      assert effects[..j + 1][..j] == effects[..j];
    }
    assert effects[..|effects|] == effects;
  }

  /** The critical chance of the catalog: only Lucky Coins contributes. */
  function LuckChance(s: GameState): real
  {
    Min(GetLevel(LuckyCoins, s) as real * 0.05, 0.5)
  }

  /** For this catalog the fold has a closed form: Click Power is the only
      click bonus, Auto Clicker adds its level less one on a passive tick, no
      entry has a click multiplier, and Lucky Coins is the only click chance. */
  lemma CatalogTotals(s: GameState, auto: bool)
    ensures AccumulateCatalog(Catalog, s, auto) ==
      Totals(GetLevel(ClickPower, s) as real + (if auto then GetLevel(AutoClicker, s) as real - 1.0 else 0.0),
             1.0, LuckChance(s))
  {
    CatalogHead(s, auto);
    CatalogTail(s, auto, AccumulateCatalog(Catalog[..3], s, auto));
  }

  /** The three airdrop entries change nothing for a click or a tick. */
  lemma CatalogTail(s: GameState, auto: bool, t: Totals)
    requires AccumulateCatalog(Catalog[..3], s, auto) == t
    ensures AccumulateCatalog(Catalog, s, auto) == t
  {
    var c := Catalog;
    AccumulateStep(c, 3, s, auto);
    KeyStep(AirdropChance, s, auto, t);
    AccumulateStep(c, 4, s, auto);
    KeyStep(AirdropSpeed, s, auto, t);
    AccumulateStep(c, 5, s, auto);
    KeyStep(ExtraDropValue, s, auto, t);
    assert c[..6] == c;
  }

  /** The first three entries: Auto Clicker, Lucky Coins, Click Power. */
  lemma CatalogHead(s: GameState, auto: bool)
    ensures AccumulateCatalog(Catalog[..3], s, auto) ==
      Totals(GetLevel(ClickPower, s) as real + (if auto then GetLevel(AutoClicker, s) as real - 1.0 else 0.0),
             1.0, LuckChance(s))
  {
    var c := Catalog;
    var autoBonus := if auto then GetLevel(AutoClicker, s) as real - 1.0 else 0.0;
    assert c[..0] == [];
    AccumulateStep(c, 0, s, auto);
    KeyStep(AutoClicker, s, auto, NoEffects);
    var t1 := Totals(autoBonus, 1.0, 0.0);
    assert AccumulateCatalog(c[..1], s, auto) == t1;
    AccumulateStep(c, 1, s, auto);
    KeyStep(LuckyCoins, s, auto, t1);
    var t2 := Totals(autoBonus, 1.0, LuckChance(s));
    assert AccumulateCatalog(c[..2], s, auto) == t2;
    AccumulateStep(c, 2, s, auto);
    KeyStep(ClickPower, s, auto, t2);
  }

  /** The fold over one more entry of `keys`. */
  lemma AccumulateStep(keys: seq<UpgradeKey>, i: nat, s: GameState, auto: bool)
    requires i < |keys|
    ensures AccumulateCatalog(keys[..i + 1], s, auto) ==
      AccumulateEffects(AccumulateCatalog(keys[..i], s, auto), GetEffects(keys[i], s), auto)
  {
    assert keys[..i + 1][..i] == keys[..i];
  }

  /** What each catalog entry adds to the accumulators. */
  lemma KeyStep(k: UpgradeKey, s: GameState, auto: bool, t: Totals)
    ensures AccumulateEffects(t, GetEffects(k, s), auto) ==
      match k
      case AutoClicker => if auto then t.(bonus := t.bonus + GetLevel(AutoClicker, s) as real - 1.0) else t
      case LuckyCoins => t.(chance := t.chance + LuckChance(s))
      case ClickPower => t.(bonus := t.bonus + GetLevel(ClickPower, s) as real)
      case _ => t
  {
    var es := GetEffects(k, s);
    assert es[..0] == [];
  }

  /** Rebirths scale the whole gain by `rebirths + 1`. */
  function RebirthFactor(s: GameState): real
  {
    if s.rebirths > 0 then (s.rebirths + 1) as real else 1.0
  }

  /** The gain in closed form: `(1 + clickPower) * factor` for a click,
      `(clickPower + autoClicker) * factor` for a tick with an auto clicker,
      times 2.5 exactly when the sample is below the Lucky Coins chance. */
  lemma ClickGainClosedForm(s: GameState, auto: bool, sample: real)
    ensures var click := GetLevel(ClickPower, s) as real;
      var autoLevel := GetLevel(AutoClicker, s) as real;
      var plain := if auto then (click + autoLevel) * RebirthFactor(s) else (1.0 + click) * RebirthFactor(s);
      ClickGain(s, auto, sample) ==
        if auto && GetLevel(AutoClicker, s) == 0 then 0.0
        else if sample < LuckChance(s) then plain * Critical
        else plain
  {
    CatalogTotals(s, auto);
  }

  lemma PassiveGainNeedsAutoClicker(s: GameState, sample: real)
    requires GetLevel(AutoClicker, s) == 0
    ensures ClickGain(s, true, sample) == 0.0
  {
  }

  lemma FreshStateClickGainsOne(s: GameState, sample: real)
    requires s.upgrades == map[] && s.rebirths == 0 && sample >= 0.0
    ensures ClickGain(s, false, sample) == 1.0
  {
    ClickGainClosedForm(s, false, sample);
  }

  lemma RebirthsScaleGain(s: GameState, auto: bool, sample: real)
    requires s.rebirths > 0
    ensures ClickGain(s, auto, sample) == (s.rebirths + 1) as real * ClickGain(s.(rebirths := 0), auto, sample)
  {
    var z := s.(rebirths := 0);
    ClickGainClosedForm(s, auto, sample);
    ClickGainClosedForm(z, auto, sample);
    assert GetLevel(ClickPower, z) == GetLevel(ClickPower, s);
    assert GetLevel(AutoClicker, z) == GetLevel(AutoClicker, s);
    assert LuckChance(z) == LuckChance(s);
  }

  /** A sample of 1 never triggers a critical (the chance is at most 0.5), so
      `ClickGain(s, auto, 1.0)` is the plain gain; any sample gives 2.5 times
      that exactly when it is below the chance. */
  lemma CriticalExactlyBelowChance(s: GameState, auto: bool, sample: real)
    ensures ClickGain(s, auto, sample) ==
      if sample < LuckChance(s) then Critical * ClickGain(s, auto, 1.0) else ClickGain(s, auto, 1.0)
  {
    ClickGainClosedForm(s, auto, sample);
    ClickGainClosedForm(s, auto, 1.0);
  }

  /** `100000 * (rebirths + 1) ** 2`. */
  function NextRebirthCost(s: GameState): (cost: int)
    ensures cost >= 0
    ensures s.rebirths >= 0 ==> cost >= 100000
  {
    var run := s.rebirths;
    var n := run + 1;
    assert n * n >= 0 by {
      if n < 0 { assert n * n == (-n) * (-n); }
    }
    assert run >= 0 ==> n * n >= 1;
    100000 * (n * n)
  }

  lemma RebirthCostExamples(s: GameState)
    ensures s.rebirths == 0 ==> NextRebirthCost(s) == 100000
    ensures s.rebirths == 1 ==> NextRebirthCost(s) == 400000
    ensures s.rebirths == 2 ==> NextRebirthCost(s) == 900000
  {
  }

  lemma RebirthCostIncreasing(s: GameState, t: GameState)
    requires 0 <= s.rebirths < t.rebirths
    ensures NextRebirthCost(s) < NextRebirthCost(t)
  {
    var a, b := s.rebirths + 1, t.rebirths + 1;
    assert a * a < b * b by {
      assert a * a <= a * b;
      assert a * b < b * b;
    }
  }
}

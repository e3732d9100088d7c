/** The upgrade catalog: six entries, each with cost parameters, an optional
    maximum level, and a rule that turns the stored level into one effect. */
module UpgradesConfig {
  import opened Wrappers
  import opened GameReducer

  datatype Target = OnClick | OnAutoclicker | OnAirdrop
  datatype EffectType = Additive | Multiplier | Chance | Special
  datatype Effect = Effect(target: Target, kind: EffectType, value: real)

  datatype UpgradeConfig = UpgradeConfig(
    title: string,
    description: string,
    baseCost: int,
    costIncrement: int,
    maxLevel: Option<int>)

  datatype UpgradeKey = AutoClicker | LuckyCoins | ClickPower | AirdropChance | AirdropSpeed | ExtraDropValue

  /** The catalog's keys in declaration order, which is the order the gain
      calculator visits them. */
  const Catalog: seq<UpgradeKey> :=
    [AutoClicker, LuckyCoins, ClickPower, AirdropChance, AirdropSpeed, ExtraDropValue]

  /** The id under which a key's level is stored in the game state. */
  function Id(k: UpgradeKey): string
  {
    match k
    case AutoClicker => "autoClicker"
    case LuckyCoins => "luckyCoins"
    case ClickPower => "clickPower"
    case AirdropChance => "airdropChance"
    case AirdropSpeed => "airdropSpeed"
    case ExtraDropValue => "extraDropValue"
  }

  function Config(k: UpgradeKey): UpgradeConfig
  {
    match k
    case AutoClicker =>
      UpgradeConfig("Auto Clicker", "Generates coins automatically every second.", 10, 10, None)
    case LuckyCoins =>
      UpgradeConfig("Lucky Coins", "Chance to trigger a critical click.", 150, 200, Some(10))
    case ClickPower =>
      UpgradeConfig("Click Power", "Increase the amount of coins gained per click.", 50, 50, None)
    case AirdropChance =>
      UpgradeConfig("Airdrop Chance", "Increase the chance of an airdrop appearing.", 200, 250, Some(20))
    case AirdropSpeed =>
      UpgradeConfig("Airdrop Speed", "Decrease cooldown between airdrops.", 300, 300, Some(15))
    case ExtraDropValue =>
      UpgradeConfig("Extra Drop Value", "Increase the coins gained from airdrops.", 250, 200, None)
  }

  function GetLevel(k: UpgradeKey, s: GameState): int
  {
    LevelOf(s.upgrades, Id(k))
  }

  function Min(a: real, b: real): real
  {
    if a <= b then a else b
  }

  /** The effects an entry contributes in state `s`: always exactly one. */
  function GetEffects(k: UpgradeKey, s: GameState): (r: seq<Effect>)
    ensures |r| == 1
  {
    var level := GetLevel(k, s) as real;
    match k
    case AutoClicker => [Effect(OnAutoclicker, Additive, level * 1.0)]
    case LuckyCoins => [Effect(OnClick, Chance, Min(level * 0.05, 0.5))]
    case ClickPower => [Effect(OnClick, Additive, level)]
    case AirdropChance => [Effect(OnAirdrop, Chance, Min(level * 0.02, 0.5))]
    case AirdropSpeed => [Effect(OnAirdrop, Multiplier, 1.0 - Min(level * 0.05, 0.75))]
    case ExtraDropValue => [Effect(OnAirdrop, Multiplier, 1.0 + level * 0.1)]
  }

  lemma CatalogIdsDistinct()
    ensures forall i, j :: 0 <= i < j < |Catalog| ==> Id(Catalog[i]) != Id(Catalog[j])
    ensures forall k: UpgradeKey :: k in Catalog
  {
    forall k: UpgradeKey ensures k in Catalog {
      match k
      case AutoClicker => assert Catalog[0] == k;
      case LuckyCoins => assert Catalog[1] == k;
      case ClickPower => assert Catalog[2] == k;
      case AirdropChance => assert Catalog[3] == k;
      case AirdropSpeed => assert Catalog[4] == k;
      case ExtraDropValue => assert Catalog[5] == k;
    }
  }

  lemma GetLevelStoredOrZero(k: UpgradeKey, s: GameState)
    ensures Id(k) in s.upgrades ==> GetLevel(k, s) == s.upgrades[Id(k)]
    ensures Id(k) !in s.upgrades ==> GetLevel(k, s) == 0
  {
  }

  /** An entry's effect target and type do not depend on the state; only the
      value does, and only through the entry's own level. */
  lemma EffectShapeFixed(k: UpgradeKey, s: GameState, t: GameState)
    ensures GetEffects(k, s)[0].target == GetEffects(k, t)[0].target
    ensures GetEffects(k, s)[0].kind == GetEffects(k, t)[0].kind
    ensures GetLevel(k, s) == GetLevel(k, t) ==> GetEffects(k, s) == GetEffects(k, t)
  {
  }

  lemma LevelEffects(s: GameState)
    ensures GetEffects(AutoClicker, s) == [Effect(OnAutoclicker, Additive, GetLevel(AutoClicker, s) as real)]
    ensures GetEffects(ClickPower, s) == [Effect(OnClick, Additive, GetLevel(ClickPower, s) as real)]
  {
  }

  lemma LuckyCoinsChance(s: GameState)
    ensures var v := GetEffects(LuckyCoins, s)[0].value;
      v <= 0.5 &&
      (GetLevel(LuckyCoins, s) <= 10 ==> v == GetLevel(LuckyCoins, s) as real * 0.05) &&
      (GetLevel(LuckyCoins, s) >= 10 ==> v == 0.5) &&
      (GetLevel(LuckyCoins, s) >= 0 ==> v >= 0.0)
    ensures Config(LuckyCoins).maxLevel == Some(10)
  {
  }

  /** Within its maximum level of 20 the airdrop chance is at most 0.4, so
      its 0.5 cap is never the binding term for a level the store sells. */
  lemma AirdropChanceChance(s: GameState)
    ensures var v := GetEffects(AirdropChance, s)[0].value;
      v <= 0.5 &&
      (GetLevel(AirdropChance, s) <= 25 ==> v == GetLevel(AirdropChance, s) as real * 0.02) &&
      (GetLevel(AirdropChance, s) >= 25 ==> v == 0.5) &&
      (0 <= GetLevel(AirdropChance, s) <= 20 ==> 0.0 <= v <= 0.4)
    ensures Config(AirdropChance).maxLevel == Some(20)
  {
  }

  lemma AirdropSpeedMultiplier(s: GameState)
    ensures var v := GetEffects(AirdropSpeed, s)[0].value;
      v >= 0.25 &&
      (GetLevel(AirdropSpeed, s) <= 15 ==> v == 1.0 - GetLevel(AirdropSpeed, s) as real * 0.05) &&
      (GetLevel(AirdropSpeed, s) >= 15 ==> v == 0.25) &&
      (GetLevel(AirdropSpeed, s) >= 0 ==> v <= 1.0)
    ensures Config(AirdropSpeed).maxLevel == Some(15)
  {
  }

  lemma ExtraDropValueMultiplier(s: GameState)
    requires GetLevel(ExtraDropValue, s) >= 0
    ensures GetEffects(ExtraDropValue, s)[0].value >= 1.0
    ensures Config(ExtraDropValue).maxLevel == None
  {
  }
}

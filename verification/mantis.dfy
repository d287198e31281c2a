/** Scyther's Mantis estimation (`src/subtools/scythers_mantis_estimation/inject.js`).

    Mantis shows two estimates beside a Pokémon: its physical and special bulk (HP times
    Defense or Special Defense, after Assault Vest and Eviolite) and, for each move, its power
    (attack stat times base power times a damage roll, times 1.5 with STAB). Both are shown
    in thousands with one decimal, and the move and Pokémon search results can be sorted by
    them. The extension's options, the dex lookups and the stats the room computes are
    parameters here. */
module Mantis {
  import opened Wrappers
  import opened Dicts
  import opened Json
  import Strings

  // ---------------------------------------------------------------- options

  /** `this.options?.key`: `undefined` when there are no options or no such key. */
  function Setting(options: Option<Dict<Json>>, key: string): (r: Option<Json>)
    ensures options.None? ==> r.None?
    ensures options.Some? ==> (r.Some? <==> key in Keys(options.value))
  {
    if options.None? then None else Get(options.value, key)
  }

  const SHOW_BULK: string := "show_bulk"
  const SHOW_POWER: string := "show_power"
  const SHOW_POWER_IN_SEARCH: string := "show_power_in_search"
  const SHOW_BULK_IN_SEARCH: string := "show_bulk_in_search"

  /** `shouldShowBulk`, `shouldShowPower`, `shouldShowPowerInSearch` and
      `shouldShowBulkInSearch`, each `options?.key !== false` for its own key: a display is
      on unless its option is exactly `false`, so a missing option, `null`, `0` or `""`
      leaves it on. */
  function ShouldShow(options: Option<Dict<Json>>, key: string): (r: bool)
    ensures Setting(options, key).None? ==> r
    ensures !r <==> Setting(options, key) == Some(JBool(false))
  {
    Setting(options, key) != Some(JBool(false))
  }

  /** A falsy option other than `false` keeps the display on. */
  lemma FalsyStillShows(options: Option<Dict<Json>>, key: string)
    requires Setting(options, key) in {Some(JNull), Some(JNum(0.0)), Some(JStr(""))}
    ensures ShouldShow(options, key) && !TruthyOpt(Setting(options, key))
  {
  }

  const MIN_ROLL_KEY: string := "min_roll"
  /** The lowest damage roll, 0.85, times the 0.84 of the average roll. */
  const MIN_ROLL: real := 0.714
  const AVERAGE_ROLL: real := 0.84
  const MIN_ROLL_SUFFIX: string := "m"

  /** `getRollMultiplier`: the minimum roll when `min_roll` is truthy, else the average. */
  function RollMultiplier(options: Option<Dict<Json>>): (m: real)
    ensures m == MIN_ROLL <==> TruthyOpt(Setting(options, MIN_ROLL_KEY))
    ensures m == AVERAGE_ROLL <==> !TruthyOpt(Setting(options, MIN_ROLL_KEY))
  {
    if TruthyOpt(Setting(options, MIN_ROLL_KEY)) then MIN_ROLL else AVERAGE_ROLL
  }

  /** `isMinRoll`: `min_roll === true`. */
  predicate IsMinRoll(options: Option<Dict<Json>>) {
    Setting(options, MIN_ROLL_KEY) == Some(JBool(true))
  }

  /** Whenever the values are marked as minimum rolls, they are computed with the minimum
      roll. */
  lemma MarkedMeansMinRoll(options: Option<Dict<Json>>)
    requires IsMinRoll(options)
    ensures RollMultiplier(options) == MIN_ROLL
  {
  }

  /** The two tests differ on a truthy `min_roll` that is not `true`: the minimum roll is
      used, but the values are not marked. */
  lemma TruthyMinRollUnmarked()
    ensures var options := Some([(MIN_ROLL_KEY, JNum(1.0))]);
      RollMultiplier(options) == MIN_ROLL && !IsMinRoll(options)
  {
    var options := Some([(MIN_ROLL_KEY, JNum(1.0))]);
    assert Setting(options, MIN_ROLL_KEY) == Some(JNum(1.0));
  }

  /** The text `createPowerDisplayElement` shows for a power value: the value, followed by
      `"m"` when min-roll is on and the value is not `"?"`. */
  function PowerText(options: Option<Dict<Json>>, value: string): (t: string)
    ensures t == value || t == value + MIN_ROLL_SUFFIX
    ensures t != value <==> IsMinRoll(options) && value != "?"
  {
    value + if IsMinRoll(options) && value != "?" then MIN_ROLL_SUFFIX else ""
  }

  // ---------------------------------------------------------------- formatting

  /** `Math.round(x)`: the nearest integer, a half rounded up. */
  function Round(x: real): (k: int)
    ensures x - 0.5 < k as real <= x + 0.5
  {
    (x + 0.5).Floor
  }

  /** `(k / 10).toFixed(1)` for a non-negative integer `k`: the tens, a point, the units. */
  function UnsignedTenths(k: nat): (s: string)
    ensures |s| >= 3 && '0' <= s[0] <= '9'
  {
    Strings.NatToString(k / 10) + "." + [Strings.DigitChar(k % 10)]
  }

  /** `(k / 10).toFixed(1)` for an integer `k`; `-0` prints as `"0.0"`. */
  function Tenths(k: int): (s: string)
    ensures s != "?"
  {
    if k < 0 then "-" + UnsignedTenths(-k) else UnsignedTenths(k)
  }

  /** `formatValue(value, basePower)`, the default `basePower` being `None`: `"?"` exactly
      for a base power of 0, else the value in thousands, rounded to one decimal, which
      `parseFloat` reads back as that number. */
  function FormatValue(value: real, basePower: Option<real>): (s: string)
    ensures s == "?" <==> basePower == Some(0.0)
  {
    if basePower == Some(0.0) then "?" else Tenths(Round(value / 1000.0))
  }

  /** `parseFloat` reads a formatted number back as the value in thousands, rounded to one
      decimal: never `NaN`. */
  lemma FormatReadsBack(value: real, basePower: Option<real>)
    requires basePower != Some(0.0)
    ensures Strings.ParseFloat(FormatValue(value, basePower)) == Some(Round(value / 1000.0) as real / 10.0)
  {
    TenthsParse(Round(value / 1000.0));
  }

  lemma TenthsParse(k: int)
    ensures Strings.ParseFloat(Tenths(k)) == Some(k as real / 10.0)
  {
    if k < 0 {
      NegativeTenthsParse(k);
    } else {
      PositiveTenthsParse(k);
    }
  }

  lemma NegativeTenthsParse(k: int)
    requires k < 0
    ensures Strings.ParseFloat(Tenths(k)) == Some(k as real / 10.0)
  {
    NegativeTenthsRead(k, -k);
    NegatedTenth(k);
  }

  /** `-` followed by the unsigned text of `m` reads as minus a tenth of `m`. */
  lemma NegativeTenthsRead(k: int, m: nat)
    requires k < 0 && m == -k
    ensures Strings.ParseFloat(Tenths(k)) == Some(-(m as real / 10.0))
  {
    UnsignedTenthsParse(m);
    NegativeTenthsShape(k);
    NegatedParse(Tenths(k), UnsignedTenths(m), m as real / 10.0);
  }

  lemma NegativeTenthsShape(k: int)
    requires k < 0
    ensures Tenths(k) == "-" + UnsignedTenths(-k)
  {
  }

  lemma NegatedTenth(k: int)
    ensures -((-k) as real / 10.0) == k as real / 10.0
  {
  }

  lemma PositiveTenthsParse(k: nat)
    ensures Strings.ParseFloat(Tenths(k)) == Some(k as real / 10.0)
  {
    UnsignedTenthsParse(k);
    UnsignedParse(UnsignedTenths(k));
  }

  /** A leading minus sign negates the number. */
  lemma NegatedParse(t: string, u: string, x: real)
    requires t == "-" + u && Strings.UnsignedFloat(u) == Some(x)
    ensures Strings.ParseFloat(t) == Some(-x)
  {
    assert t[1..] == u;
  }

  /** Without a leading minus sign the number is read as it stands. */
  lemma UnsignedParse(s: string)
    requires |s| > 0 && '0' <= s[0] <= '9'
    ensures Strings.ParseFloat(s) == Strings.UnsignedFloat(s)
  {
  }

  lemma UnsignedTenthsParse(k: nat)
    ensures Strings.UnsignedFloat(UnsignedTenths(k)) == Some(k as real / 10.0)
  {
    var d := Strings.NatToString(k / 10);
    var c := Strings.DigitChar(k % 10);
    PointShape(UnsignedTenths(k), d, c);
    OneDecimal(UnsignedTenths(k), d, c);
    Strings.NatToStringValue(k / 10);
    TenthsSum(k, Strings.DigitsValue(d), Strings.DigitValue(c));
  }

  /** `digits.d`: the digits are a run, followed by the point and the one digit. */
  lemma PointShape(s: string, d: string, c: char)
    requires Strings.IsDigits(d) && s == d + "." + [c]
    ensures Strings.DigitRun(s) == |d| && |d| < |s| && s[|d|] == '.' && s[..|d|] == d && s[|d| + 1..] == [c]
  {
    assert s == d + ("." + [c]);
    Strings.DigitRunPrefix(d, "." + [c]);
  }

  /** `digits.d` reads as the digits' value plus a tenth of `d`. */
  lemma OneDecimal(s: string, d: string, c: char)
    requires |d| > 0 && Strings.DigitRun(s) == |d| && |d| < |s| && s[|d|] == '.'
    requires s[..|d|] == d && s[|d| + 1..] == [c] && '0' <= c <= '9'
    ensures Strings.IsDigits(d)
    ensures Strings.UnsignedFloat(s) == Some(Strings.DigitsValue(d) as real + Strings.DigitValue(c) as real / 10.0)
  {
    OneDigit(c);
    Strings.PointedFloat(s, |d|, 1);
    assert s[|d| + 1..][..1] == [c];
  }

  /** A single digit is a run of one, worth a tenth of its value after the point. */
  lemma OneDigit(c: char)
    requires '0' <= c <= '9'
    ensures Strings.DigitRun([c]) == 1 && [c][..1] == [c]
    ensures Strings.FractionValue([c]) == Strings.DigitValue(c) as real / 10.0
  {
    assert [c][..0] == [];
    assert [c][1..] == [];
  }

  lemma TenthsSum(k: nat, q: nat, u: nat)
    requires q == k / 10 && u == k % 10
    ensures q as real + u as real / 10.0 == k as real / 10.0
  {
  }

  // ---------------------------------------------------------------- bulk

  /** The HP, Defense and Special Defense a bulk estimate starts from. */
  datatype BulkStats = BulkStats(hp: int, def: int, spd: int)

  /** What `calculateBulkValues` reads of the Pokémon: its `stats` (present in a battle
      room), `maxhp`, and the id of the dex entry of its item (`None` when it holds none or
      the dex has no such item). */
  datatype Holder = Holder(stats: Option<BulkStats>, maxhp: Option<int>, itemId: Option<string>)

  /** The estimate: the two formatted values and the stats they were computed from. */
  datatype Bulk = Bulk(physical: string, special: string, hp: int, def: int, spd: int)

  /** `Math.floor(x * 1.5)`. */
  function Boost(x: int): (r: int)
    ensures r as real <= 1.5 * x as real < r as real + 1.0
  {
    (3 * x) / 2
  }

  /** Defense and Special Defense after the held item: Assault Vest raises Special Defense
      by half, Eviolite raises both by half on a Pokémon that can still evolve, and every
      other item changes nothing. */
  function ItemStats(def: int, spd: int, itemId: Option<string>, nfe: bool): (r: (int, int))
  {
    if itemId == Some("assaultvest") then (def, Boost(spd))
    else if itemId == Some("eviolite") && nfe then (Boost(def), Boost(spd))
    else (def, spd)
  }

  /** The item effects, case by case; neither stat ever goes down. */
  lemma ItemEffects(def: int, spd: int, itemId: Option<string>, nfe: bool)
    requires def >= 0 && spd >= 0
    ensures var r := ItemStats(def, spd, itemId, nfe);
      && (itemId == Some("assaultvest") ==> r == (def, Boost(spd)))
      && (itemId == Some("eviolite") ==> r == (if nfe then (Boost(def), Boost(spd)) else (def, spd)))
      && (itemId !in {Some("assaultvest"), Some("eviolite")} ==> r == (def, spd))
      && def <= r.0 && spd <= r.1
  {
  }

  /** The physical or special bulk of `hp` and a defensive stat. */
  function BulkValue(hp: int, stat: int): string {
    FormatValue((hp * stat) as real, None)
  }

  /** `calculateBulkValues(pokemon, species, dex)`. In a battle room the stats are the
      Pokémon's own and HP is `maxhp || stats.hp`; elsewhere they are `room.getStat`'s,
      given as `built`. */
  method CalculateBulkValues(pokemon: Holder, built: BulkStats, nfe: bool) returns (b: Bulk)
    ensures pokemon.stats.Some? && pokemon.maxhp.Some? && pokemon.maxhp.value != 0 ==>
      b.hp == pokemon.maxhp.value
    ensures pokemon.stats.Some? && (pokemon.maxhp.None? || pokemon.maxhp.value == 0) ==>
      b.hp == pokemon.stats.value.hp
    ensures pokemon.stats.None? ==> b.hp == built.hp
    ensures var base := if pokemon.stats.Some? then pokemon.stats.value else built;
      (b.def, b.spd) == ItemStats(base.def, base.spd, pokemon.itemId, nfe)
    ensures b.physical == BulkValue(b.hp, b.def) && b.special == BulkValue(b.hp, b.spd)
  {
    var hp, def, spd;
    if pokemon.stats.Some? {
      hp := if pokemon.maxhp.Some? && pokemon.maxhp.value != 0 then pokemon.maxhp.value
            else pokemon.stats.value.hp;
      def := pokemon.stats.value.def;
      spd := pokemon.stats.value.spd;
    } else {
      hp := built.hp;
      def := built.def;
      spd := built.spd;
    }
    if pokemon.itemId.Some? {
      if pokemon.itemId.value == "assaultvest" {
        spd := Boost(spd);
      } else if pokemon.itemId.value == "eviolite" && nfe {
        def := Boost(def);
        spd := Boost(spd);
      }
    }
    var physicalBulk := FormatValue((hp * def) as real, None);
    var specialBulk := FormatValue((hp * spd) as real, None);
    b := Bulk(physicalBulk, specialBulk, hp, def, spd);
  }

  // ---------------------------------------------------------------- power

  /** A move's dex entry, as far as the estimate reads it. */
  datatype Move = Move(category: string, moveType: string, basePower: real)

  /** The attacker's Attack and Special Attack (its own stats in battle, `room.getStat`'s
      elsewhere). */
  datatype AttackStats = AttackStats(atk: int, spa: int)

  /** The `powerData` object. */
  datatype PowerData = PowerData(
    category: string, attackStat: int, basePower: real, hasStab: bool, value: string)

  /** `attackStat * basePower * rollMultiplier`, then `* 1.5` with STAB. */
  function Power(attackStat: int, basePower: real, roll: real, stab: bool): real {
    var p := attackStat as real * basePower * roll;
    if stab then p * 1.5 else p
  }

  /** STAB is worth exactly half again. */
  lemma StabBonus(attackStat: int, basePower: real, roll: real)
    ensures Power(attackStat, basePower, roll, true) == 1.5 * Power(attackStat, basePower, roll, false)
  {
  }

  /** The minimum-roll estimate is 85% of the average-roll one. */
  lemma MinRollRatio(attackStat: int, basePower: real, stab: bool)
    ensures Power(attackStat, basePower, MIN_ROLL, stab) == 0.85 * Power(attackStat, basePower, AVERAGE_ROLL, stab)
  {
  }

  /** The attack stat a move uses: Attack for a physical move, Special Attack otherwise. */
  function AttackStat(attacker: AttackStats, move: Move): int {
    if move.category == "Physical" then attacker.atk else attacker.spa
  }

  /** The estimated power of `move` at `basePower`, STAB when the species has its type. */
  function MoveEstimate(attacker: AttackStats, move: Move, types: seq<string>, roll: real, basePower: real): real {
    Power(AttackStat(attacker, move), basePower, roll, move.moveType in types)
  }

  /** `calculateMovePowerWithBasePower(pokemon, move, species, basePower)`: `None` (`null`)
      for a status move; otherwise the physical or special attack stat by category, STAB
      when the species has the move's type, and the power formatted against `basePower`. */
  function MovePower(attacker: AttackStats, move: Move, types: seq<string>, roll: real, basePower: real)
    : (r: Option<PowerData>)
    ensures r.None? <==> move.category == "Status"
    ensures r.Some? ==>
      && r.value.attackStat == AttackStat(attacker, move)
      && r.value.hasStab == (move.moveType in types)
      && r.value.value == FormatValue(MoveEstimate(attacker, move, types, roll, basePower), Some(basePower))
      && (r.value.value == "?" <==> basePower == 0.0)
  {
    if move.category == "Status" then None
    else
      var isPhysical := move.category == "Physical";
      var attackStat := if isPhysical then attacker.atk else attacker.spa;
      var hasStab := move.moveType in types;
      var power := Power(attackStat, basePower, roll, hasStab);
      Some(PowerData(move.category, attackStat, basePower, hasStab, FormatValue(power, Some(basePower))))
  }

  /** `calculateMovePower(pokemon, move, species, dex)`, which repeats the body above with
      the move's own base power: `None` for a status move; otherwise the attack stat by
      category, STAB when the species has the move's type, and `"?"` exactly for a base
      power of 0. */
  function CalculateMovePower(attacker: AttackStats, move: Move, types: seq<string>, roll: real)
    : (r: Option<PowerData>)
    ensures r.None? <==> move.category == "Status"
    ensures r.Some? ==>
      && r.value.category == move.category
      && r.value.attackStat == (if move.category == "Physical" then attacker.atk else attacker.spa)
      && r.value.basePower == move.basePower
      && r.value.hasStab == (move.moveType in types)
      && (r.value.value == "?" <==> move.basePower == 0.0)
  {
    if move.category == "Status" then None
    else
      var isPhysical := move.category == "Physical";
      var attackStat := if isPhysical then attacker.atk else attacker.spa;
      var hasStab := move.moveType in types;
      var power := Power(attackStat, move.basePower, roll, hasStab);
      Some(PowerData(move.category, attackStat, move.basePower, hasStab, FormatValue(power, Some(move.basePower))))
  }

  /** The two copies agree: `calculateMovePower` is `calculateMovePowerWithBasePower` at the
      move's own base power. */
  lemma CalculateIsWithBasePower(attacker: AttackStats, move: Move, types: seq<string>, roll: real)
    ensures CalculateMovePower(attacker, move, types, roll) == MovePower(attacker, move, types, roll, move.basePower)
  {
  }

  // ---------------------------------------------------------------- sorting

  /** `reverseSort ? -1 : 1`. */
  function SortOrder(reverse: bool): real {
    if reverse then -1.0 else 1.0
  }

  /** A search result row: its type and the dex entry of its id (`None` when the lookup
      fails). */
  datatype MoveRow = MoveRow(rowType: string, move: Option<Move>)

  /** What the move comparator reads from the room: the attack stats of `room.curSet`
      (`None` when there is no set), the types of its species (`None` when the species is
      not found) and the roll multiplier. */
  datatype SetContext = SetContext(curSet: Option<AttackStats>, types: Option<seq<string>>, roll: real)

  /** What the `mantispow` comparator reads from one move, in the order it tests it: a status
      move; a damaging move whose power is unknown (`"?"`, or no power data); one whose power
      text does not read back as a number; or the number its power text reads back as. */
  datatype PowKey = StatusKey | VariableKey | UnreadKey | PowerKey(power: real)

  function PowKeyOf(ctx: SetContext, m: Move): PowKey
    requires ctx.curSet.Some? && ctx.types.Some?
  {
    if m.category == "Status" then StatusKey
    else
      var powerData := CalculateMovePower(ctx.curSet.value, m, ctx.types.value, ctx.roll);
      if powerData.None? || powerData.value.value == "?" then VariableKey
      else
        // the power data is present here, so the source's `null` test that follows
        // cannot fire
        var power := Strings.ParseFloat(powerData.value.value);
        if power.None? then UnreadKey else PowerKey(power.value)
  }

  /** The comparator's chain of tests on the two keys: at each stage both alike tie, and
      otherwise the row that fails the stage goes last. */
  function PowCompare(sortOrder: real, k1: PowKey, k2: PowKey): real {
    if k1.StatusKey? && k2.StatusKey? then 0.0
    else if k1.StatusKey? then sortOrder
    else if k2.StatusKey? then -sortOrder
    else if k1.VariableKey? && k2.VariableKey? then 0.0
    else if k1.VariableKey? then sortOrder
    else if k2.VariableKey? then -sortOrder
    else if k1.UnreadKey? && k2.UnreadKey? then 0.0
    else if k1.UnreadKey? then sortOrder
    else if k2.UnreadKey? then -sortOrder
    else (k2.power - k1.power) * sortOrder
  }

  /** Swapping the keys flips the sign. */
  lemma PowCompareAntisymmetric(sortOrder: real, k1: PowKey, k2: PowKey)
    ensures PowCompare(sortOrder, k2, k1) == -PowCompare(sortOrder, k1, k2)
  {
  }

  /** The descending order is the ascending one negated. */
  lemma PowCompareReverse(k1: PowKey, k2: PowKey)
    ensures PowCompare(-1.0, k1, k2) == -PowCompare(1.0, k1, k2)
  {
  }

  /** The `mantispow` comparator; a negative result puts `a` first. */
  function PowOrder(reverse: bool, ctx: SetContext, a: MoveRow, b: MoveRow): (c: real)
    ensures !(a.rowType == "move" && b.rowType == "move") ==> c == 0.0
    ensures ctx.curSet.None? || ctx.types.None? || a.move.None? || b.move.None? ==> c == 0.0
  {
    if a.rowType == "move" && b.rowType == "move" then
      if ctx.curSet.None? || ctx.types.None? || a.move.None? || b.move.None? then 0.0
      else PowCompare(SortOrder(reverse), PowKeyOf(ctx, a.move.value), PowKeyOf(ctx, b.move.value))
    else 0.0
  }

  /** The tier of a move in the power order: damaging moves with a fixed base power first,
      then variable ones (`"?"`), then status moves. */
  function Tier(m: Move): nat {
    if m.category == "Status" then 2 else if m.basePower == 0.0 then 1 else 0
  }

  /** The rounded power in hundreds that a damaging move is shown and sorted by: for a move
      with a fixed base power, the number its power text reads back as. */
  function ShownPower(ctx: SetContext, m: Move): (k: int)
    requires ctx.curSet.Some? && ctx.types.Some?
    ensures Tier(m) == 0 ==>
      var p := CalculateMovePower(ctx.curSet.value, m, ctx.types.value, ctx.roll);
      p.Some? && p.value.value != "?" && Strings.ParseFloat(p.value.value) == Some(k as real / 10.0)
  {
    CalculateIsWithBasePower(ctx.curSet.value, m, ctx.types.value, ctx.roll);
    var estimate := MoveEstimate(ctx.curSet.value, m, ctx.types.value, ctx.roll, m.basePower);
    var k := Round(estimate / 1000.0);
    if m.basePower == 0.0 then k
    else
      FormatReadsBack(estimate, Some(m.basePower));
      k
  }

  /** Both rows are moves and everything the comparator looks up is found. */
  predicate Comparable(ctx: SetContext, a: MoveRow, b: MoveRow) {
    a.rowType == "move" && b.rowType == "move" && ctx.curSet.Some? && ctx.types.Some?
    && a.move.Some? && b.move.Some?
  }

  /** In ascending order (`reverseSort` false) a move comes first exactly when its tier is
      lower, or both have a fixed base power and its shown power is higher; it ties exactly
      when the tiers are equal and, for fixed base powers, the shown powers too. */
  lemma PowOrderSpec(ctx: SetContext, a: MoveRow, b: MoveRow)
    requires Comparable(ctx, a, b)
    ensures var m1, m2 := a.move.value, b.move.value;
      PowOrder(false, ctx, a, b) < 0.0 <==>
        Tier(m1) < Tier(m2) || (Tier(m1) == 0 == Tier(m2) && ShownPower(ctx, m1) > ShownPower(ctx, m2))
    ensures var m1, m2 := a.move.value, b.move.value;
      PowOrder(false, ctx, a, b) == 0.0 <==>
        Tier(m1) == Tier(m2) && (Tier(m1) != 0 || ShownPower(ctx, m1) == ShownPower(ctx, m2))
  {
    PowKeyOfTier(ctx, a.move.value);
    PowKeyOfTier(ctx, b.move.value);
    if Tier(a.move.value) == 0 && Tier(b.move.value) == 0 {
      PowNumeric(ctx, a, b);
    }
  }

  /** The key a move is compared by follows its tier; a fixed base power is read back as
      the shown power. */
  lemma PowKeyOfTier(ctx: SetContext, m: Move)
    requires ctx.curSet.Some? && ctx.types.Some?
    ensures PowKeyOf(ctx, m).StatusKey? <==> Tier(m) == 2
    ensures PowKeyOf(ctx, m).VariableKey? <==> Tier(m) == 1
    ensures Tier(m) == 0 ==> PowKeyOf(ctx, m) == PowerKey(ShownPower(ctx, m) as real / 10.0)
  {
  }

  /** Between two moves with a fixed base power the comparator is the difference of the
      shown powers, read back from their text. */
  lemma PowNumeric(ctx: SetContext, a: MoveRow, b: MoveRow)
    requires Comparable(ctx, a, b) && Tier(a.move.value) == 0 && Tier(b.move.value) == 0
    ensures PowOrder(false, ctx, a, b) ==
      (ShownPower(ctx, b.move.value) - ShownPower(ctx, a.move.value)) as real / 10.0
  {
    PowKeyOfTier(ctx, a.move.value);
    PowKeyOfTier(ctx, b.move.value);
  }

  /** `reverseSort` flips the sign of every comparison. */
  lemma PowOrderReverse(ctx: SetContext, a: MoveRow, b: MoveRow)
    ensures PowOrder(true, ctx, a, b) == -PowOrder(false, ctx, a, b)
  {
    if Comparable(ctx, a, b) {
      PowCompareReverse(PowKeyOf(ctx, a.move.value), PowKeyOf(ctx, b.move.value));
    }
  }

  /** Swapping the rows flips the sign, as a consistent comparator must. */
  lemma PowOrderAntisymmetric(reverse: bool, ctx: SetContext, a: MoveRow, b: MoveRow)
    ensures PowOrder(reverse, ctx, b, a) == -PowOrder(reverse, ctx, a, b)
  {
    if Comparable(ctx, a, b) {
      var k1, k2 := PowKeyOf(ctx, a.move.value), PowKeyOf(ctx, b.move.value);
      PowCompareAntisymmetric(SortOrder(reverse), k1, k2);
    }
  }

  /** A Pokémon search result row: its type and the stats `room.getStat` gives its species
      (`None` when the species is not found). */
  datatype PokemonRow = PokemonRow(rowType: string, stats: Option<BulkStats>)

  /** The `mantispbulk` comparator (`special` false) and the `mantissbulk` one (`special`
      true): the bulk of a fresh set of the species, without an item, read back with
      `parseFloat`. */
  function BulkOrder(reverse: bool, special: bool, hasCurSet: bool, a: PokemonRow, b: PokemonRow): (c: real)
    ensures !(a.rowType == "pokemon" && b.rowType == "pokemon") ==> c == 0.0
  {
    var sortOrder := SortOrder(reverse);
    if a.rowType == "pokemon" && b.rowType == "pokemon" then
      if !hasCurSet || a.stats.None? || b.stats.None? then 0.0
      else
        var s1, s2 := a.stats.value, b.stats.value;
        var bulk1 := Strings.ParseFloat(FormatValue(Defended(s1, special) as real, None));
        var bulk2 := Strings.ParseFloat(FormatValue(Defended(s2, special) as real, None));
        if bulk1.None? && bulk2.None? then 0.0
        else if bulk1.None? then sortOrder
        else if bulk2.None? then -sortOrder
        else (bulk2.value - bulk1.value) * sortOrder
    else 0.0
  }

  /** HP times Defense, or times Special Defense. */
  function Defended(s: BulkStats, special: bool): int {
    s.hp * (if special then s.spd else s.def)
  }

  /** The rounded bulk in hundreds a species is shown and sorted by: the number its bulk
      text reads back as. */
  function ShownBulk(s: BulkStats, special: bool): (k: int)
    ensures Strings.ParseFloat(FormatValue(Defended(s, special) as real, None)) == Some(k as real / 10.0)
  {
    ShownTenths(Defended(s, special) as real)
  }

  /** The number of tenths a formatted value without base power reads back as. */
  function ShownTenths(x: real): (k: int)
    ensures Strings.ParseFloat(FormatValue(x, None)) == Some(k as real / 10.0)
  {
    var k := Round(x / 1000.0);
    assert FormatValue(x, None) == Tenths(k);
    TenthsParse(k);
    k
  }

  /** In ascending order the bulkier species comes first, ties being equal shown bulk; no
      formatted bulk is ever NaN. */
  lemma BulkOrderSpec(special: bool, a: PokemonRow, b: PokemonRow)
    requires a.rowType == "pokemon" && b.rowType == "pokemon" && a.stats.Some? && b.stats.Some?
    ensures BulkOrder(false, special, true, a, b) < 0.0 <==>
      ShownBulk(a.stats.value, special) > ShownBulk(b.stats.value, special)
    ensures BulkOrder(false, special, true, a, b) == 0.0 <==>
      ShownBulk(a.stats.value, special) == ShownBulk(b.stats.value, special)
  {
    BulkNumeric(special, a, b);
  }

  /** Between two species the comparator is the difference of the shown bulks, read back
      from their text. */
  lemma BulkNumeric(special: bool, a: PokemonRow, b: PokemonRow)
    requires a.rowType == "pokemon" && b.rowType == "pokemon" && a.stats.Some? && b.stats.Some?
    ensures BulkOrder(false, special, true, a, b) ==
      (ShownBulk(b.stats.value, special) - ShownBulk(a.stats.value, special)) as real / 10.0
  {
    var k1, k2 := ShownBulk(a.stats.value, special), ShownBulk(b.stats.value, special);
  }

  /** `reverseSort` flips the sign of every comparison. */
  lemma BulkOrderReverse(special: bool, hasCurSet: bool, a: PokemonRow, b: PokemonRow)
    ensures BulkOrder(true, special, hasCurSet, a, b) == -BulkOrder(false, special, hasCurSet, a, b)
  {
  }

  /** Swapping the rows flips the sign. */
  lemma BulkOrderAntisymmetric(reverse: bool, special: bool, hasCurSet: bool, a: PokemonRow, b: PokemonRow)
    ensures BulkOrder(reverse, special, hasCurSet, b, a) == -BulkOrder(reverse, special, hasCurSet, a, b)
  {
  }

  // ---------------------------------------------------------------- battle tooltips

  /** What `modifyTooltipContent` reads of the battle: how many sides it has, which of them
      is the player's, whether the viewpoint is switched, and whether `myPokemon` is set. */
  datatype TooltipBattle = TooltipBattle(sides: nat, mySide: nat, viewpointSwitched: bool, hasMyPokemon: bool)

  /** The outcome: the tooltip is not a Pokémon's (`return`), it is one the player does not
      own (`serverPokemon` stays `null`), or it is `myPokemon[index]` (`None` standing for
      `NaN`). After the choice, inject.js:1015 reads `serverPokemon.speciesForme` with no
      null check, so on `NotMine` (an opponent's Pokémon) the hook throws a TypeError and
      the tooltip is left as Showdown drew it; the display code after that point is not
      part of this model. */
  datatype Target = Ignore | NotMine | Slot(index: Option<nat>)

  /** `parseInt(args[i], 10)`, `NaN` past the end. */
  function Arg(args: seq<string>, i: nat): Option<nat> {
    if i < |args| then Strings.ParseInt(args[i]) else None
  }

  /** `+viewpointSwitched ^ sideIndex`: the low bit flipped on a switched viewpoint, `NaN`
      counting as 0. */
  function ViewSide(viewpointSwitched: bool, sideIndex: Option<nat>): nat {
    var i := sideIndex.GetOr(0);
    if !viewpointSwitched then i else if i % 2 == 0 then i + 1 else i - 1
  }

  /** `battle.sides[k] === battle.mySide`. */
  predicate IsMySide(battle: TooltipBattle, k: Option<nat>) {
    k.Some? && k.value < battle.sides && k.value == battle.mySide
  }

  /** The Pokémon a hovered tooltip's `data-tooltip` names. */
  function TooltipTarget(tooltip: string, battle: TooltipBattle): (t: Target)
    ensures var kind := Strings.Split(tooltip, "|")[0];
      t == Ignore <==> kind != "switchpokemon" && kind != "activepokemon" && kind != "pokemon"
  {
    TargetOf(Strings.Split(tooltip, "|"), battle)
  }

  /** The same on the `|`-separated fields. */
  function TargetOf(args: seq<string>, battle: TooltipBattle): (t: Target)
    requires |args| >= 1
    ensures var kind := args[0];
      t == Ignore <==> kind != "switchpokemon" && kind != "activepokemon" && kind != "pokemon"
  {
    var kind := args[0];
    if kind == "switchpokemon" then Slot(Arg(args, 1))
    else if kind == "activepokemon" then
      var sideIndex := Arg(args, 1);
      var activeIndex := Arg(args, 2);
      var pokemonIndex :=
        if activeIndex.Some? && activeIndex.value >= 1 && battle.sides > 2 then Some(activeIndex.value - 1)
        else activeIndex;
      if IsMySide(battle, Some(ViewSide(battle.viewpointSwitched, sideIndex))) && battle.hasMyPokemon
      then Slot(pokemonIndex)
      else NotMine
    else if kind == "pokemon" then
      var sideIndex := Arg(args, 1);
      if IsMySide(battle, sideIndex) && battle.hasMyPokemon then Slot(Arg(args, 2)) else NotMine
    else Ignore
  }

  /** Switching the viewpoint twice is no switch: the flip is its own inverse. */
  lemma ViewSideInvolutive(i: nat)
    ensures ViewSide(true, Some(ViewSide(true, Some(i)))) == i
  {
  }

  /** In a two-sided battle with an unswitched viewpoint, an active Pokémon's tooltip and
      the team tooltip with the same fields name the same slot, once the side is a number
      (`NaN` counts as side 0 in the first, and as no side at all in the second). */
  lemma ActiveMatchesTeam(side: string, slot: string, battle: TooltipBattle)
    requires battle.sides <= 2 && !battle.viewpointSwitched
    requires |side| > 0 && '0' <= side[0] <= '9'
    ensures TargetOf(["activepokemon", side, slot], battle) == TargetOf(["pokemon", side, slot], battle)
  {
  }

  /** With more than two sides, an active Pokémon's slot one or higher is one lower among
      the player's Pokémon. */
  lemma MultiBattleShift(side: nat, slot: nat, battle: TooltipBattle)
    requires battle.sides > 2 && slot >= 1 && !battle.viewpointSwitched
    requires side == battle.mySide && side < battle.sides && battle.hasMyPokemon
    ensures TargetOf(["activepokemon", Strings.NatToString(side), Strings.NatToString(slot)], battle)
            == Slot(Some(slot - 1))
  {
    Strings.NatToStringValue(side);
    Strings.NatToStringValue(slot);
  }

  /** A tooltip of three `|`-free fields is read field by field. */
  lemma TooltipFields(kind: string, x: string, y: string, battle: TooltipBattle)
    requires '|' !in kind && '|' !in x && '|' !in y
    ensures TooltipTarget(kind + "|" + x + "|" + y, battle) == TargetOf([kind, x, y], battle)
  {
    SplitThree(kind, x, y);
  }

  lemma NoBarInDigits(s: string)
    requires Strings.IsDigits(s)
    ensures '|' !in s
  {
  }

  /** A `|`-separated tooltip of three fields splits into them. */
  lemma SplitThree(kind: string, x: string, y: string)
    requires '|' !in kind && '|' !in x && '|' !in y
    ensures Strings.Split(kind + "|" + x + "|" + y, "|") == [kind, x, y]
  {
    Strings.SplitJoin([kind, x, y], '|');
    assert Strings.Join([kind, x, y], "|") == kind + "|" + x + "|" + y by {
      assert Strings.Join([y], "|") == y;
      assert Strings.Join([x, y], "|") == x + "|" + y;
    }
  }
}

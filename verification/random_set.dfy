/** Random-set generation from Smogon usage statistics (`generateRandomSet` in
    `src/util/ShowdownAPI.js` and in the lucky-button subtool) and the usage-table parser of
    the lucky-button subtool. Every `Math.random()` draw is a parameter. */
module RandomSets {
  import opened Wrappers
  import opened Dicts
  import Strings
  import Util

  // ---------------------------------------------------------------------------------------
  // The moveset draw
  // ---------------------------------------------------------------------------------------

  function Max0(x: real): real {
    if x < 0.0 then 0.0 else x
  }

  /** `Object.fromEntries(Object.entries(moves).map(([m, c]) => [m, c / monData["Raw count"]]))`. */
  function Normalise(moves: Dict<real>, rawCount: real): (r: Dict<real>)
    requires rawCount != 0.0
    ensures |r| == |moves|
    ensures forall i :: 0 <= i < |moves| ==> r[i] == (moves[i].0, moves[i].1 / rawCount)
  {
    if moves == [] then [] else [(moves[0].0, moves[0].1 / rawCount)] + Normalise(moves[1..], rawCount)
  }

  /** `moves[randomMove] = Math.max(0, moves[randomMove] - 1)` after a draw. An `undefined`
      draw leaves the weights as they are, where the source adds the key `"undefined"` with
      weight `NaN`. The drawn moves still agree for draws in [0, 1), which is what
      `Math.random` returns: such a draw is `undefined` only when the total weight is 0, and
      then every later draw is `undefined` in both (the source's total is `NaN`). A draw of
      1 or more is not covered by that agreement. */
  function Decrement(weights: Dict<real>, m: Option<string>): Dict<real>
    requires m.Some? ==> m.value in Keys(weights)
  {
    match m
    case None => weights
    case Some(k) => Put(weights, k, Max0(Get(weights, k).value - 1.0))
  }

  /** Only the drawn move's weight changes: it drops by one, floored at zero. */
  lemma DecrementFloors(weights: Dict<real>, k: string, k': string)
    requires k in Keys(weights)
    ensures Keys(Decrement(weights, Some(k))) == Keys(weights)
    ensures Get(Decrement(weights, Some(k)), k') ==
      if k' == k then Some(Max0(Get(weights, k).value - 1.0)) else Get(weights, k')
  {
    PutKeys(weights, k, Max0(Get(weights, k).value - 1.0));
    PutGet(weights, k, Max0(Get(weights, k).value - 1.0), k');
  }

  lemma DecrementKeys(weights: Dict<real>, m: Option<string>)
    requires m.Some? ==> m.value in Keys(weights)
    ensures Keys(Decrement(weights, m)) == Keys(weights)
  {
    if m.Some? {
      PutKeys(weights, m.value, Max0(Get(weights, m.value).value - 1.0));
    }
  }

  ghost predicate NonNegative(weights: Dict<real>) {
    forall i :: 0 <= i < |weights| ==> weights[i].1 >= 0.0
  }

  /** The decrement keeps every weight non-negative. */
  lemma DecrementNonNegative(weights: Dict<real>, m: Option<string>)
    requires m.Some? ==> m.value in Keys(weights)
    requires NonNegative(weights)
    ensures NonNegative(Decrement(weights, m))
  {
    if m.Some? {
      var k := m.value;
      var w := Decrement(weights, m);
      PutKeys(weights, k, Max0(Get(weights, k).value - 1.0));
      forall i | 0 <= i < |w| ensures w[i].1 >= 0.0 {
        PutEntry(weights, k, Max0(Get(weights, k).value - 1.0), i);
      }
    }
  }

  /** Every entry of a `Put` is the new pair or an old one. */
  lemma {:induction false} PutEntry(d: Dict<real>, k: string, v: real, i: nat)
    requires i < |Put(d, k, v)|
    ensures Put(d, k, v)[i] == (k, v) || Put(d, k, v)[i] in d
  {
    if d != [] && d[0].0 != k && i > 0 {
      PutEntry(d[1..], k, v, i - 1);
    }
  }

  /** The four-slot loop: the moves drawn (blanks left off, `undefined` kept) and the weights
      after every decrement. */
  function DrawAll(weights: Dict<real>, draws: seq<real>): (r: (seq<Option<string>>, Dict<real>))
    ensures |r.0| <= |draws|
    ensures Keys(r.1) == Keys(weights)
    decreases |draws|
  {
    if draws == [] then ([], weights)
    else
      var m := Util.Choice(weights, draws[0]);
      var w := Decrement(weights, m);
      DecrementKeys(weights, m);
      var rest := DrawAll(w, draws[1..]);
      (Kept(m) + rest.0, rest.1)
  }

  /** No drawn move is blank, and every one that is not `undefined` is one of the moves. */
  lemma {:induction false} DrawAllPicks(weights: Dict<real>, draws: seq<real>)
    ensures forall i :: 0 <= i < |DrawAll(weights, draws).0| ==>
      DrawAll(weights, draws).0[i] != Some("")
    ensures forall i :: 0 <= i < |DrawAll(weights, draws).0| && DrawAll(weights, draws).0[i].Some? ==>
      DrawAll(weights, draws).0[i].value in Keys(weights)
    decreases |draws|
  {
    if draws != [] {
      var m := Util.Choice(weights, draws[0]);
      var w := Decrement(weights, m);
      if m.Some? {
        DecrementFloors(weights, m.value, m.value);
      }
      DrawAllPicks(w, draws[1..]);
      var picked := DrawAll(weights, draws).0;
      var rest := DrawAll(w, draws[1..]).0;
      assert picked == Kept(m) + rest;
      forall i | 0 <= i < |picked|
        ensures picked[i] != Some("") && (picked[i].Some? ==> picked[i].value in Keys(weights))
      {
        if i < |Kept(m)| {
          assert picked[i] == m;
        } else {
          assert picked[i] == rest[i - |Kept(m)|];
        }
      }
    }
  }

  /** `n` blank move slots. */
  function Blanks(n: nat): (b: seq<Option<string>>)
    ensures |b| == n && forall i :: 0 <= i < n ==> b[i] == Some("")
  {
    seq(n, _ => Some(""))
  }

  /** The moveset `generateRandomSet` builds: the drawn moves, then blank padding. */
  function Moveset(moves: Dict<real>, draws: seq<real>): seq<Option<string>>
    requires |draws| == 4
  {
    var picked := DrawAll(moves, draws).0;
    picked + Blanks(4 - |picked|)
  }

  /** The moveset has exactly four slots, blanks only after every drawn move, and each drawn
      move is one of the mon's moves. */
  lemma MovesetShape(moves: Dict<real>, draws: seq<real>)
    requires |draws| == 4
    ensures |Moveset(moves, draws)| == 4
    ensures forall i, j :: 0 <= i < j < 4 && Moveset(moves, draws)[i] == Some("") ==>
      Moveset(moves, draws)[j] == Some("")
    ensures forall i :: 0 <= i < 4 && Moveset(moves, draws)[i] != Some("") ==>
      i < |DrawAll(moves, draws).0| && (Moveset(moves, draws)[i].Some? ==>
        Moveset(moves, draws)[i].value in Keys(moves))
  {
    DrawAllPicks(moves, draws);
    var picked := DrawAll(moves, draws).0;
    var ms := Moveset(moves, draws);
    forall i | 0 <= i < 4 ensures (ms[i] == Some("")) == (i >= |picked|) {
      if i < |picked| {
        assert ms[i] == picked[i] && picked[i] != Some("");
      } else {
        assert ms[i] == Blanks(4 - |picked|)[i - |picked|];
      }
    }
  }

  /** The moveset part of `generateRandomSet`: the four draws, then the padding. */
  method GenerateMoveset(moves: Dict<real>, draws: seq<real>)
    returns (moveset: seq<Option<string>>, weights: Dict<real>)
    requires |draws| == 4
    ensures moveset == Moveset(moves, draws)
    ensures weights == DrawAll(moves, draws).1
  {
    var picked;
    picked, weights := DrawMoves(moves, draws);
    moveset := PadBlanks(picked);
  }

  /** `for (let i = 0; i < 4; i++)`: draw a move, keep it unless blank, decrement its
      weight. */
  method DrawMoves(moves: Dict<real>, draws: seq<real>)
    returns (moveset: seq<Option<string>>, weights: Dict<real>)
    ensures (moveset, weights) == DrawAll(moves, draws)
  {
    weights := moves;
    moveset := [];
    assert draws[0..] == draws;
    assert [] + DrawAll(moves, draws).0 == DrawAll(moves, draws).0;
    for i := 0 to |draws|
      invariant DrawAll(moves, draws) == Continue(moveset, DrawAll(weights, draws[i..]))
    {
      var randomMove := Util.WeightedRandom(weights, draws[i]);
      DrawStep(moveset, weights, draws[i..], randomMove);
      assert draws[i..][1..] == draws[i + 1..];
      weights := Decrement(weights, randomMove);
      moveset := moveset + Kept(randomMove);
    }
    assert draws[|draws|..] == [];
    assert DrawAll(weights, []) == ([], weights);
    assert moveset + [] == moveset;
  }

  /** The moves drawn so far followed by what the remaining draws give. */
  function Continue(moveset: seq<Option<string>>, rest: (seq<Option<string>>, Dict<real>))
    : (seq<Option<string>>, Dict<real>)
  {
    (moveset + rest.0, rest.1)
  }

  /** `if (randomMove != '') moveset.push(randomMove)`. */
  function Kept(m: Option<string>): seq<Option<string>> {
    if m != Some("") then [m] else []
  }

  /** `while (moveset.length < 4) moveset.push("")`. */
  method PadBlanks(picked: seq<Option<string>>) returns (moveset: seq<Option<string>>)
    requires |picked| <= 4
    ensures moveset == picked + Blanks(4 - |picked|)
  {
    moveset := picked;
    while |moveset| < 4
      invariant |picked| <= |moveset| <= 4
      invariant moveset == picked + Blanks(|moveset| - |picked|)
      decreases 4 - |moveset|
    {
      moveset := moveset + [Some("")];
    }
  }

  /** One iteration of the draw loop. */
  lemma DrawStep(moveset: seq<Option<string>>, weights: Dict<real>, draws: seq<real>, m: Option<string>)
    requires |draws| > 0 && m == Util.Choice(weights, draws[0])
    ensures Continue(moveset, DrawAll(weights, draws)) ==
      Continue(moveset + Kept(m), DrawAll(Decrement(weights, m), draws[1..]))
  {
    var rest := DrawAll(Decrement(weights, m), draws[1..]);
    assert DrawAll(weights, draws) == (Kept(m) + rest.0, rest.1);
    assert moveset + (Kept(m) + rest.0) == (moveset + Kept(m)) + rest.0;
  }

  // ---------------------------------------------------------------------------------------
  // The spread
  // ---------------------------------------------------------------------------------------

  const STAT_KEYS: seq<string> := ["hp", "atk", "def", "spa", "spd", "spe"]

  /** `statKeys[i]`, which is `undefined` (the key `"undefined"`) past the sixth. */
  function EvKey(i: nat): string {
    if i < |STAT_KEYS| then STAT_KEYS[i] else "undefined"
  }

  /** `Object.fromEntries(evsRaw.split("/").map((ev, i) => [statKeys[i], Number(ev)]))`. */
  function Evs(pieces: seq<string>): Dict<Option<nat>> {
    FromEntries(seq(|pieces|, i requires 0 <= i < |pieces| => (EvKey(i), Strings.Number(pieces[i]))))
  }

  const UNDEFINED_SPLIT := "TypeError: Cannot read properties of undefined (reading 'split')"

  /** `const [nature, evsRaw] = spread.split(":")` and the EV object; a missing spread or a
      spread without `:` throws when `.split` is called on `undefined`. */
  function ParseSpread(spread: Option<string>): (r: Result<(string, Dict<Option<nat>>)>)
    ensures r.Err? <==> spread.None? || ':' !in spread.value
  {
    match spread
    case None => Err(UNDEFINED_SPLIT)
    case Some(s) =>
      var parts := Strings.Split(s, ":");
      if |parts| < 2 then
        assert ':' !in s by {
          if ':' in s {
            Strings.CharContains(s, ':');
          }
        }
        Err(UNDEFINED_SPLIT)
      else
        assert ':' in s by {
          if ':' !in s {
            Strings.NoCharNoOccurrence(s, ':');
          }
        }
        Ok((parts[0], Evs(Strings.Split(parts[1], "/"))))
  }

  /** `"Nature:a/b/c/d/e/f"` gives that nature and the six EVs under hp, atk, def, spa, spd
      and spe, in that order. */
  lemma SpreadFields(nature: string, evs: seq<string>)
    requires |evs| == 6 && ':' !in nature
    requires forall k :: 0 <= k < 6 ==> ':' !in evs[k] && '/' !in evs[k]
    ensures ParseSpread(Some(nature + ":" + Strings.Join(evs, "/"))) ==
      Ok((nature, seq(6, i requires 0 <= i < 6 => (STAT_KEYS[i], Strings.Number(evs[i])))))
  {
    var j := Strings.Join(evs, "/");
    Strings.JoinAvoids(evs, "/", ':');
    NatureSplit(nature, j);
    Strings.SplitJoin(evs, '/');
    SixEvs(evs);
  }

  lemma NatureSplit(nature: string, rest: string)
    requires ':' !in nature && ':' !in rest
    ensures Strings.Split(nature + ":" + rest, ":") == [nature, rest]
  {
    Strings.JoinCons(nature, [rest], ":");
    assert [nature] + [rest] == [nature, rest];
    Strings.SplitJoin([nature, rest], ':');
  }

  /** Six pieces land under the six stat keys, in order. */
  lemma SixEvs(evs: seq<string>)
    requires |evs| == 6
    ensures Evs(evs) == seq(6, i requires 0 <= i < 6 => (STAT_KEYS[i], Strings.Number(evs[i])))
  {
    var pairs := seq(6, i requires 0 <= i < 6 => (STAT_KEYS[i], Strings.Number(evs[i])));
    var mapped := seq(|evs|, i requires 0 <= i < |evs| => (EvKey(i), Strings.Number(evs[i])));
    assert mapped == pairs;
    StatKeysDistinct(pairs);
    assert [] + pairs == pairs;
    PutAllFresh([], pairs);
  }

  lemma StatKeysDistinct<V>(pairs: seq<(string, V)>)
    requires |pairs| == 6 && forall i :: 0 <= i < 6 ==> pairs[i].0 == STAT_KEYS[i]
    ensures DistinctKeys(pairs)
  {
  }

  // ---------------------------------------------------------------------------------------
  // The set
  // ---------------------------------------------------------------------------------------

  /** A mon's entry in the chaos statistics: weights for moves, spreads, items, abilities and
      happiness values, and the raw count the move weights are divided by. */
  datatype MonData = MonData(
    moves: Dict<real>, rawCount: real, spreads: Dict<real>,
    items: Dict<real>, abilities: Dict<real>, happiness: Dict<real>)

  /** The `Math.random()` values `generateRandomSet` consumes, in call order. */
  datatype Draws = Draws(moves: seq<real>, spread: real, item: real, ability: real, happiness: real)

  datatype PokemonSet = PokemonSet(
    name: string, species: string, item: Option<string>, ability: Option<string>,
    moves: seq<Option<string>>, nature: string, evs: Dict<Option<nat>>, ivs: Dict<nat>,
    happiness: Option<string>, hpType: string, pokeball: string, gigantamax: bool,
    dynamaxLevel: nat, teraType: string, level: nat)

  const PERFECT_IVS: Dict<nat> :=
    [("hp", 31), ("atk", 31), ("def", 31), ("spa", 31), ("spd", 31), ("spe", 31)]

  /** The set `generateRandomSet(species, monData)` returns, or the error it throws. */
  function RandomSet(species: string, mon: MonData, draws: Draws): Result<PokemonSet>
    requires |draws.moves| == 4 && mon.rawCount != 0.0
  {
    var moves := Moveset(Normalise(mon.moves, mon.rawCount), draws.moves);
    match ParseSpread(Util.Choice(mon.spreads, draws.spread))
    case Err(e) => Err(e)
    case Ok(spread) =>
      Ok(PokemonSet(species, species, Util.Choice(mon.items, draws.item),
                    Util.Choice(mon.abilities, draws.ability), moves, spread.0, spread.1,
                    PERFECT_IVS, Util.Choice(mon.happiness, draws.happiness), "", "", false,
                    10, "Stellar", 100))
  }

  /** `generateRandomSet` in `src/util/ShowdownAPI.js`. */
  method GenerateRandomSet(species: string, mon: MonData, draws: Draws)
    returns (r: Result<PokemonSet>)
    requires |draws.moves| == 4 && mon.rawCount != 0.0
    ensures r == RandomSet(species, mon, draws)
  {
    var moves := Normalise(mon.moves, mon.rawCount);
    var moveset, _ := GenerateMoveset(moves, draws.moves);
    var spread := Util.WeightedRandom(mon.spreads, draws.spread);
    var parsed := ParseSpread(spread);
    if parsed.Err? {
      return Err(parsed.error);
    }
    var item := Util.WeightedRandom(mon.items, draws.item);
    var ability := Util.WeightedRandom(mon.abilities, draws.ability);
    var happiness := Util.WeightedRandom(mon.happiness, draws.happiness);
    r := Ok(PokemonSet(species, species, item, ability, moveset, parsed.value.0,
                       parsed.value.1, PERFECT_IVS, happiness, "", "", false, 10, "Stellar",
                       100));
  }

  /** What every generated set has regardless of the draws: the species as its name, four
      move slots with blanks last, perfect IVs, level 100 and the Stellar tera type; and it
      fails exactly when the drawn spread is missing or has no `:`. */
  lemma RandomSetFixed(species: string, mon: MonData, draws: Draws)
    requires |draws.moves| == 4 && mon.rawCount != 0.0
    ensures RandomSet(species, mon, draws).Err? <==>
      ParseSpread(Util.Choice(mon.spreads, draws.spread)).Err?
    ensures RandomSet(species, mon, draws).Ok? ==>
      var ps := RandomSet(species, mon, draws).value;
      && ps.name == species && ps.species == species
      && |ps.moves| == 4
      && (forall i, j :: 0 <= i < j < 4 && ps.moves[i] == Some("") ==> ps.moves[j] == Some(""))
      && (forall k :: 0 <= k < 6 ==> Get(ps.ivs, STAT_KEYS[k]) == Some(31))
      && ps.level == 100 && ps.teraType == "Stellar"
  {
    MovesetShape(Normalise(mon.moves, mon.rawCount), draws.moves);
    PerfectIvs();
  }

  /** Every stat's IV is 31. */
  lemma PerfectIvs()
    ensures forall k :: 0 <= k < 6 ==> Get(PERFECT_IVS, STAT_KEYS[k]) == Some(31)
  {
    forall k | 0 <= k < 6 ensures Get(PERFECT_IVS, STAT_KEYS[k]) == Some(31) {
      assert PERFECT_IVS[k] == (STAT_KEYS[k], 31);
      StatKeysDistinct(PERFECT_IVS);
      GetAt(PERFECT_IVS, k);
    }
  }

  /** The lucky-button subtool's names: Pokemon Showdown's dex lookups, which are outside
      this model, as parameters. */
  datatype Dex = Dex(itemName: Option<string> -> string, abilityName: Option<string> -> string,
                     moveName: Option<string> -> string)

  /** The lucky-button `generateRandomSet`: the same draws, with the item, the ability and
      every move slot replaced by the dex's name for it. */
  function LuckySet(species: string, mon: MonData, draws: Draws, dex: Dex): (r: Result<PokemonSet>)
    requires |draws.moves| == 4 && mon.rawCount != 0.0
    ensures r.Err? <==> RandomSet(species, mon, draws).Err?
    ensures r.Ok? ==>
      var base := RandomSet(species, mon, draws).value;
      && |r.value.moves| == 4
      && r.value.item == Some(dex.itemName(base.item))
      && r.value.ability == Some(dex.abilityName(base.ability))
      && (forall i :: 0 <= i < 4 ==> r.value.moves[i] == Some(dex.moveName(base.moves[i])))
      && r.value.(item := base.item, ability := base.ability, moves := base.moves) == base
  {
    match RandomSet(species, mon, draws)
    case Err(e) => Err(e)
    case Ok(ps) =>
      MovesetShape(Normalise(mon.moves, mon.rawCount), draws.moves);
      Ok(ps.(item := Some(dex.itemName(ps.item)), ability := Some(dex.abilityName(ps.ability)),
              moves := seq(|ps.moves|, i requires 0 <= i < |ps.moves| => Some(dex.moveName(ps.moves[i])))))
  }

  // ---------------------------------------------------------------------------------------
  // Usage statistics
  // ---------------------------------------------------------------------------------------

  /** `.slice(5, -2)`: the header's five lines and the footer's two go. */
  function TableRows(lines: seq<string>): seq<string> {
    if |lines| >= 7 then lines[5..|lines| - 2] else []
  }

  /** One table line: split on `'|'`, trim every cell, and map cell 2 (the name) to the parsed
      cell 3 (the usage); a missing cell reads as `undefined`. */
  function UsageEntry(line: string): (string, Option<real>) {
    var cells := Strings.Split(line, "|");
    var name := if |cells| > 2 then Strings.Trim(cells[2]) else "undefined";
    var usage := if |cells| > 3 then Strings.ParseFloat(Strings.Trim(cells[3])) else None;
    (name, usage)
  }

  /** The `[name, usage]` pairs of the table body. */
  function UsageEntries(raw: string): (pairs: seq<(string, Option<real>)>)
    ensures var rows := TableRows(Strings.Split(raw, "\n"));
      |pairs| == |rows| && forall i :: 0 <= i < |rows| ==> pairs[i] == UsageEntry(rows[i])
  {
    var rows := TableRows(Strings.Split(raw, "\n"));
    seq(|rows|, i requires 0 <= i < |rows| => UsageEntry(rows[i]))
  }

  /** `getUsageDataForFormat`'s parse of the fetched usage table. */
  function ParseUsage(raw: string): Dict<Option<real>> {
    FromEntries(UsageEntries(raw))
  }

  /** A name holds the usage of the LAST body row carrying it. */
  lemma UsageLastRowWins(raw: string, i: nat)
    requires i < |UsageEntries(raw)|
    requires forall j :: i < j < |UsageEntries(raw)| ==> UsageEntries(raw)[j].0 != UsageEntries(raw)[i].0
    ensures Get(ParseUsage(raw), UsageEntries(raw)[i].0) == Some(UsageEntries(raw)[i].1)
  {
    PutAllGet([], UsageEntries(raw), i);
  }

  /** The parsed table has one key per distinct name in the body rows, and no other. */
  lemma UsageKeys(raw: string, name: string)
    ensures DistinctKeys(ParseUsage(raw))
    ensures name in Keys(ParseUsage(raw)) <==>
      exists j :: 0 <= j < |UsageEntries(raw)| && UsageEntries(raw)[j].0 == name
  {
    var pairs := UsageEntries(raw);
    FromEntriesKeys(pairs, name);
    if name in Keys(pairs) {
      var j :| 0 <= j < |Keys(pairs)| && Keys(pairs)[j] == name;
      assert pairs[j].0 == name;
    }
    if exists j :: 0 <= j < |pairs| && pairs[j].0 == name {
      var j :| 0 <= j < |pairs| && pairs[j].0 == name;
      assert Keys(pairs)[j] == name;
    }
  }

  /** `urlJoin(base, path)` for a relative path: exactly one `/` between the two. */
  function UrlJoin(base: string, path: string): string {
    if Strings.EndsWith(base, "/") then base + path else base + "/" + path
  }

  /** `${format}-${elo}` with `elo` defaulting to 0. */
  function StatsName(format: string, elo: Option<nat>): string {
    format + "-" + Strings.NatToString(elo.GetOr(0))
  }

  function UsageUrl(dataUrl: string, format: string, elo: Option<nat>): string {
    UrlJoin(dataUrl, StatsName(format, elo) + ".txt")
  }

  function ChaosUrl(dataUrl: string, format: string, elo: Option<nat>): string {
    UrlJoin(dataUrl, "chaos/" + StatsName(format, elo) + ".json")
  }

  /** The usage URL ends in `<format>-<elo>.txt` and the chaos URL in
      `chaos/<format>-<elo>.json`, both under the data folder, with elo 0 by default. */
  lemma StatsUrls(dataUrl: string, format: string, elo: Option<nat>)
    ensures Strings.StartsWith(UsageUrl(dataUrl, format, elo), dataUrl)
    ensures Strings.EndsWith(UsageUrl(dataUrl, format, elo),
      format + "-" + Strings.NatToString(elo.GetOr(0)) + ".txt")
    ensures Strings.StartsWith(ChaosUrl(dataUrl, format, elo), dataUrl)
    ensures Strings.EndsWith(ChaosUrl(dataUrl, format, elo),
      "chaos/" + format + "-" + Strings.NatToString(elo.GetOr(0)) + ".json")
  {
    JoinEnds(dataUrl, StatsName(format, elo) + ".txt");
    JoinEnds(dataUrl, "chaos/" + StatsName(format, elo) + ".json");
    ChaosPath(format, Strings.NatToString(elo.GetOr(0)));
  }

  lemma ChaosPath(format: string, elo: string)
    ensures "chaos/" + (format + "-" + elo) + ".json" == "chaos/" + format + "-" + elo + ".json"
  {
  }

  lemma JoinEnds(base: string, path: string)
    ensures Strings.StartsWith(UrlJoin(base, path), base)
    ensures Strings.EndsWith(UrlJoin(base, path), path)
  {
    var u := UrlJoin(base, path);
    if Strings.EndsWith(base, "/") {
      assert u[..|base|] == base && u[|u| - |path|..] == path;
    } else {
      assert u == base + ("/" + path);
      assert u[..|base|] == base && u[|u| - |path|..] == path;
    }
  }
}

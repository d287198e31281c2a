/** The announcer's asset map (`src/subtools/explouds_announcer/generateAssetMap.py`).

    Every immediate subdirectory of `assets` becomes a key. Its value is the sorted list of
    the directory's `.mp3` files. For `moves` and `pokemon`, every `.mp3` is then removed from
    the names, which leaves the move or Pokémon name. The directory listing is the input. */
module AssetMaps {
  import opened Wrappers
  import opened Dicts
  import Strings

  /** The subdirectories of `assets` in walk order, each with the names `os.listdir` gives. */
  type Listing = seq<(string, seq<string>)>

  const EXT: string := ".mp3"

  /** `[a for a in files if a.endswith(".mp3")]`. */
  function Mp3s(files: seq<string>): (r: seq<string>)
    ensures forall i :: 0 <= i < |r| ==> Strings.EndsWith(r[i], EXT)
    ensures forall f :: f in r <==> f in files && Strings.EndsWith(f, EXT)
    ensures multiset(r) <= multiset(files)
  {
    if files == [] then []
    else
      assert files == [files[0]] + files[1..];
      (if Strings.EndsWith(files[0], EXT) then [files[0]] else []) + Mp3s(files[1..])
  }

  /** Ascending in code-point order, the order of Python's `sorted` on strings. */
  ghost predicate Sorted(s: seq<string>) {
    forall i, j :: 0 <= i < j < |s| ==> Strings.LexLe(s[i], s[j])
  }

  function Insert(x: string, s: seq<string>): (r: seq<string>)
    requires Sorted(s)
    ensures Sorted(r) && multiset(r) == multiset(s) + multiset{x}
  {
    if s == [] then [x]
    else if Strings.LexLe(x, s[0]) then
      InsertFront(x, s);
      [x] + s
    else
      Strings.LexLeTotal(x, s[0]);
      var rest := Insert(x, s[1..]);
      InsertBehind(x, s, rest);
      assert s == [s[0]] + s[1..];
      [s[0]] + rest
  }

  lemma InsertFront(x: string, s: seq<string>)
    requires Sorted(s) && s != [] && Strings.LexLe(x, s[0])
    ensures Sorted([x] + s)
  {
    var r := [x] + s;
    forall i, j | 0 <= i < j < |r| ensures Strings.LexLe(r[i], r[j]) {
      if i == 0 && j > 1 {
        Strings.LexLeTrans(x, s[0], s[j - 1]);
      }
    }
  }

  lemma InsertBehind(x: string, s: seq<string>, rest: seq<string>)
    requires Sorted(s) && s != [] && Strings.LexLe(s[0], x)
    requires Sorted(rest) && multiset(rest) == multiset(s[1..]) + multiset{x}
    ensures Sorted([s[0]] + rest)
  {
    var r := [s[0]] + rest;
    forall i, j | 0 <= i < j < |r| ensures Strings.LexLe(r[i], r[j]) {
      if i == 0 {
        var y := rest[j - 1];
        assert y in multiset(rest);
        if y != x {
          assert y in multiset(s[1..]);
          var k :| 0 <= k < |s[1..]| && s[1..][k] == y;
          assert s[k + 1] == y;
        }
      }
    }
  }

  /** `sorted(names)`: the same names, ascending. */
  function Sort(s: seq<string>): (r: seq<string>)
    ensures Sorted(r) && multiset(r) == multiset(s)
  {
    if s == [] then []
    else
      assert s == [s[0]] + s[1..];
      Insert(s[0], Sort(s[1..]))
  }

  /** `[x.replace(".mp3", "") for x in names]`. */
  function Strip(names: seq<string>): (r: seq<string>)
    ensures |r| == |names|
    ensures forall i :: 0 <= i < |names| ==> r[i] == Strings.ReplaceAll(names[i], EXT, "")
  {
    seq(|names|, i requires 0 <= i < |names| => Strings.ReplaceAll(names[i], EXT, ""))
  }

  /** The map as the dict comprehension builds it, before the two renames. */
  function Comprehension(listing: Listing): (r: seq<(string, seq<string>)>)
    ensures Keys(r) == Keys(listing)
  {
    seq(|listing|, i requires 0 <= i < |listing| => (listing[i].0, Sort(Mp3s(listing[i].1))))
  }

  /** The script's map: `Err` is the `KeyError` raised when `assets` has no `moves` or no
      `pokemon` directory. */
  function AssetMap(listing: Listing): (r: Result<Dict<seq<string>>>)
    ensures r.Err? <==> "moves" !in Keys(listing) || "pokemon" !in Keys(listing)
  {
    var m := FromEntries(Comprehension(listing));
    FromEntriesKeys(Comprehension(listing), "moves");
    FromEntriesKeys(Comprehension(listing), "pokemon");
    match Get(m, "moves")
    case None => Err("KeyError: 'moves'")
    case Some(moves) =>
      var m1 := Put(m, "moves", Strip(moves));
      PutGet(m, "moves", Strip(moves), "pokemon");
      match Get(m1, "pokemon")
      case None => Err("KeyError: 'pokemon'")
      case Some(pokemon) => Ok(Put(m1, "pokemon", Strip(pokemon)))
  }

  /** The keys are exactly the subdirectories, each once. */
  lemma AssetMapKeys(listing: Listing, k: string)
    requires AssetMap(listing).Ok?
    ensures DistinctKeys(AssetMap(listing).value)
    ensures k in Keys(AssetMap(listing).value) <==> k in Keys(listing)
  {
    var entries := Comprehension(listing);
    var m := FromEntries(entries);
    FromEntriesKeys(entries, k);
    var m1 := Put(m, "moves", Strip(Get(m, "moves").value));
    PutKeys(m, "moves", Strip(Get(m, "moves").value));
    PutDistinct(m, "moves", Strip(Get(m, "moves").value));
    PutKeys(m1, "pokemon", Strip(Get(m1, "pokemon").value));
    PutDistinct(m1, "pokemon", Strip(Get(m1, "pokemon").value));
  }

  /** The list stored under a directory: its `.mp3` files, sorted, and for `moves` and
      `pokemon` with `.mp3` removed. Directories are distinct, as a file system makes them. */
  lemma AssetMapList(listing: Listing, i: nat)
    requires AssetMap(listing).Ok? && DistinctKeys(listing) && i < |listing|
    ensures Get(AssetMap(listing).value, listing[i].0) ==
      Some(if listing[i].0 in {"moves", "pokemon"} then Strip(Sort(Mp3s(listing[i].1)))
           else Sort(Mp3s(listing[i].1)))
  {
    var entries := Comprehension(listing);
    var m := FromEntries(entries);
    forall j | i < j < |entries| ensures entries[j].0 != entries[i].0 {
    }
    PutAllGet([], entries, i);
    var m1 := Put(m, "moves", Strip(Get(m, "moves").value));
    PutGet(m, "moves", Strip(Get(m, "moves").value), listing[i].0);
    PutGet(m, "moves", Strip(Get(m, "moves").value), "pokemon");
    PutGet(m1, "pokemon", Strip(Get(m1, "pokemon").value), listing[i].0);
  }

  /** A list other than `moves` and `pokemon` holds only `.mp3` names, ascending, and every
      `.mp3` file of the directory. */
  lemma PlainListShape(files: seq<string>, f: string)
    ensures Sorted(Sort(Mp3s(files)))
    ensures forall n :: n in Sort(Mp3s(files)) ==> Strings.EndsWith(n, EXT)
    ensures f in Sort(Mp3s(files)) <==> f in files && Strings.EndsWith(f, EXT)
  {
    var s := Mp3s(files);
    assert forall n :: n in Sort(s) <==> n in multiset(Sort(s));
    assert forall n :: n in s <==> n in multiset(s);
  }

  /** Removing `.mp3` from `name.mp3` gives back `name` when `name` itself holds no `.mp3`:
      the pattern cannot straddle the join, because no proper suffix of `.mp3` is a prefix
      of it. */
  lemma {:induction false} StripName(name: string)
    requires !Strings.Contains(name, EXT)
    ensures Strings.ReplaceAll(name + EXT, EXT, "") == name
  {
    var s := name + EXT;
    assert Strings.OccursAt(s, EXT, |name|) by {
      assert s[|name|..|name| + 4] == EXT;
    }
    forall j | 0 <= j < |name| ensures !Strings.OccursAt(s, EXT, j) {
      if j + 4 <= |name| {
        assert s[j..j + 4] == name[j..j + 4];
        assert Strings.IndexOf(name, EXT).None?;
        assert !Strings.OccursAt(name, EXT, j);
      } else {
        assert s[j + 3] == EXT[j + 3 - |name|];
        assert s[j..j + 4][3] != EXT[3];
      }
    }
    var i := Strings.IndexOf(s, EXT);
    assert i == Some(|name|);
    assert s[..|name|] == name;
    assert s[|name| + 4..] == [];
  }
}

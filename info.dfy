/**
  The symbol and asset tables of the SDK's `Info` client: `coin_to_asset`,
  `name_to_coin` and `asset_to_sz_decimals`, filled from a spot meta (spot
  assets offset by 10000), from the perpetual metas of the default dex
  (offset 0) and of the builder-deployed dexes (110000 + i * 10000); the
  coin remapping applied to subscriptions, and `name_to_asset`.  The HTTP
  requests (`spot_meta()`, `perp_dexs()`, `meta(dex)`) are inputs.
 */
module InfoTables {
  import opened Subscriptions
  import WsManager

  datatype Token = Token(name: string, szDecimals: int)

  /** An element of a spot meta's `universe`; `tokens` holds indices into the token list. */
  datatype SpotAsset = SpotAsset(name: string, index: int, tokens: seq<int>)

  /**
    A spot meta as decoded JSON: the `universe` and `tokens` keys, each
    possibly missing, and whether the object has any other key (an object
    with no key at all is falsy).
   */
  datatype SpotMeta = SpotMeta(universe: Option<seq<SpotAsset>>, tokens: Option<seq<Token>>, otherKeys: bool)

  datatype PerpAsset = PerpAsset(name: string, szDecimals: int)

  /** A perpetual meta; `universe` may be missing. */
  datatype Meta = Meta(universe: Option<seq<PerpAsset>>)

  datatype Tables = Tables(coinToAsset: map<string, int>, nameToCoin: map<string, string>,
                           szDecimals: map<int, int>)

  /** The exceptions the table code can raise. */
  datatype InfoError =
    | MissingTokens          // `spot_meta["tokens"]` on a meta without that key
    | TokenPairShape         // `base, quote = spot_info["tokens"]` on a list that is not a pair
    | TokenIndexOutOfRange   // `spot_meta["tokens"][i]` outside the list
    | UnknownDex(dex: string) // `perp_dex_to_offset[perp_dex]`
    | MissingAsset(coin: string) // `coin_to_asset[...]` on a coin without an asset
    | NoTables               // the tables were never created: `AttributeError`
    | NoWsManager            // `RuntimeError` when built with `skip_ws`
    | NullMeta(dex: string)  // `"universe" not in meta` on the `None` a failed `meta(dex)` request returns

  datatype Result<T> = Ok(value: T) | Err(error: InfoError)

  const SpotOffset: int := 10000
  const BuilderDexBase: int := 110000
  const BuilderDexStride: int := 10000

  const EmptyTables: Tables := Tables(map[], map[], map[])

  /** `if not spot_meta`. */
  predicate Falsy(spot: SpotMeta) {
    spot.universe.None? && spot.tokens.None? && !spot.otherKeys
  }

  /** Python's `l[i]`, negative indices counting from the end. */
  function PyIndex<T>(l: seq<T>, i: int): Option<T> {
    if 0 <= i < |l| then Some(l[i])
    else if -|l| <= i < 0 then Some(l[|l| + i])
    else None
  }

  // ---------------------------------------------------------------------------
  // The name table invariant

  /**
    Every name maps to a coin that maps to itself and has an asset id, so
    `name_to_asset` never fails on a known name and remapping twice is
    remapping once.
   */
  predicate Canonical(t: Tables) {
    forall n :: n in t.nameToCoin ==>
      var c := t.nameToCoin[n];
      c in t.nameToCoin && t.nameToCoin[c] == c && c in t.coinToAsset
  }

  // ---------------------------------------------------------------------------
  // Spot assets

  /**
    One iteration of the spot loop of `Info.__init__`: the asset id of the
    spot coin is its index plus 10000, its size decimals are those of its
    base token, the coin names itself, and the alias "BASE/QUOTE" names the
    coin only if the alias is still free.
   */
  function AddSpot(t: Tables, tokens: Option<seq<Token>>, info: SpotAsset): (r: Result<Tables>)
    ensures r.Ok? <==> tokens.Some? && |info.tokens| == 2
                       && PyIndex(tokens.value, info.tokens[0]).Some?
                       && PyIndex(tokens.value, info.tokens[1]).Some?
    ensures r.Ok? ==>
      var asset := info.index + SpotOffset;
      var base := PyIndex(tokens.value, info.tokens[0]).value;
      var alias := base.name + "/" + PyIndex(tokens.value, info.tokens[1]).value.name;
      && r.value.coinToAsset == t.coinToAsset[info.name := asset]
      && r.value.szDecimals == t.szDecimals[asset := base.szDecimals]
      && info.name in r.value.nameToCoin && r.value.nameToCoin[info.name] == info.name
      && alias in r.value.nameToCoin
      && (alias in t.nameToCoin && alias != info.name ==> r.value.nameToCoin[alias] == t.nameToCoin[alias])
      && (alias !in t.nameToCoin ==> r.value.nameToCoin[alias] == info.name)
      && forall n :: n != info.name && n != alias ==>
           (n in r.value.nameToCoin <==> n in t.nameToCoin)
           && (n in t.nameToCoin ==> r.value.nameToCoin[n] == t.nameToCoin[n])
  {
    var asset := info.index + SpotOffset;
    var coinToAsset := t.coinToAsset[info.name := asset];
    var nameToCoin := t.nameToCoin[info.name := info.name];
    if |info.tokens| != 2 then Err(TokenPairShape)
    else if tokens.None? then Err(MissingTokens)
    else
      match (PyIndex(tokens.value, info.tokens[0]), PyIndex(tokens.value, info.tokens[1]))
      case (Some(base), Some(quote)) =>
        var alias := base.name + "/" + quote.name;
        Ok(Tables(coinToAsset,
                  if alias !in nameToCoin then nameToCoin[alias := info.name] else nameToCoin,
                  t.szDecimals[asset := base.szDecimals]))
      case _ => Err(TokenIndexOutOfRange)
  }

  /** The spot loop over the first `|u|` universe entries; the first exception ends it. */
  function SpotFold(t: Tables, tokens: Option<seq<Token>>, u: seq<SpotAsset>): Result<Tables>
    decreases |u|
  {
    if u == [] then Ok(t)
    else
      match SpotFold(t, tokens, u[..|u| - 1])
      case Err(e) => Err(e)
      case Ok(t') => AddSpot(t', tokens, u[|u| - 1])
  }

  lemma AddSpotKeepsCanonical(t: Tables, tokens: Option<seq<Token>>, info: SpotAsset)
    requires Canonical(t)
    ensures AddSpot(t, tokens, info).Ok? ==> Canonical(AddSpot(t, tokens, info).value)
  {
    var r := AddSpot(t, tokens, info);
    if r.Ok? {
      var t' := r.value;
      forall n | n in t'.nameToCoin
        ensures var c := t'.nameToCoin[n];
          c in t'.nameToCoin && t'.nameToCoin[c] == c && c in t'.coinToAsset
      {
        var c := t'.nameToCoin[n];
        if c != info.name {
          // `n` kept its coin from `t`, or `n` is the alias and was kept
          assert n in t.nameToCoin && t.nameToCoin[n] == c;
          assert c in t.nameToCoin && t.nameToCoin[c] == c && c in t.coinToAsset;
        }
      }
    }
  }

  lemma {:induction false} SpotFoldKeepsCanonical(t: Tables, tokens: Option<seq<Token>>, u: seq<SpotAsset>)
    requires Canonical(t)
    ensures SpotFold(t, tokens, u).Ok? ==> Canonical(SpotFold(t, tokens, u).value)
    decreases |u|
  {
    if u != [] {
      SpotFoldKeepsCanonical(t, tokens, u[..|u| - 1]);
      var prev := SpotFold(t, tokens, u[..|u| - 1]);
      if prev.Ok? {
        AddSpotKeepsCanonical(prev.value, tokens, u[|u| - 1]);
      }
    }
  }

  /**
    After a spot loop that completes, every spot coin names itself, and a
    coin that no later universe entry repeats has the asset id of its own
    index plus 10000.
   */
  lemma {:induction false} SpotFoldEntries(t: Tables, tokens: Option<seq<Token>>, u: seq<SpotAsset>, i: nat)
    requires i < |u| && SpotFold(t, tokens, u).Ok?
    ensures var r := SpotFold(t, tokens, u).value;
      u[i].name in r.nameToCoin && r.nameToCoin[u[i].name] == u[i].name && u[i].name in r.coinToAsset
    ensures (forall j :: i < j < |u| ==> u[j].name != u[i].name) ==>
      SpotFold(t, tokens, u).value.coinToAsset[u[i].name] == u[i].index + SpotOffset
    decreases |u|
  {
    var init := u[..|u| - 1];
    var prev := SpotFold(t, tokens, init);
    assert prev.Ok?;
    var last := u[|u| - 1];
    if i < |u| - 1 {
      assert init[i] == u[i];
      SpotFoldEntries(t, tokens, init, i);
      var alias := PyIndex(tokens.value, last.tokens[0]).value.name + "/"
                   + PyIndex(tokens.value, last.tokens[1]).value.name;
      if u[i].name != last.name && u[i].name == alias {
        // the alias is already taken by the coin itself, so it is kept
        assert alias in prev.value.nameToCoin && alias != last.name;
      }
      if (forall j :: i < j < |u| ==> u[j].name != u[i].name) {
        assert u[|u| - 1].name != u[i].name;
        assert forall j :: i < j < |init| ==> init[j].name != init[i].name by {
          forall j | i < j < |init| ensures init[j].name != init[i].name {
            assert init[j] == u[j];
          }
        }
      }
    }
  }

  /** The spot tables of `Info.__init__`, or the exception that ends it. */
  method BuildSpotTables(tokens: Option<seq<Token>>, u: seq<SpotAsset>) returns (r: Result<Tables>)
    ensures r == SpotFold(EmptyTables, tokens, u)
  {
    var t := EmptyTables;
    var i := 0;
    while i < |u|
      invariant 0 <= i <= |u|
      invariant SpotFold(EmptyTables, tokens, u[..i]) == Ok(t)
    {
      assert u[..i + 1][..i] == u[..i];
      var step := AddSpot(t, tokens, u[i]);
      if step.Err? {
        SpotFoldErrStays(EmptyTables, tokens, u, i + 1);
        return step;
      }
      t := step.value;
      i := i + 1;
    }
    assert u[..i] == u;
    r := Ok(t);
  }

  /** Once the spot loop raised, the longer loop raises the same exception. */
  lemma {:induction false} SpotFoldErrStays(t: Tables, tokens: Option<seq<Token>>, u: seq<SpotAsset>, k: nat)
    requires k <= |u| && SpotFold(t, tokens, u[..k]).Err?
    ensures SpotFold(t, tokens, u) == SpotFold(t, tokens, u[..k])
    decreases |u| - k
  {
    if k == |u| {
      assert u[..k] == u;
    } else {
      assert u[..k + 1][..k] == u[..k];
      SpotFoldErrStays(t, tokens, u, k + 1);
    }
  }

  // ---------------------------------------------------------------------------
  // Perpetual assets

  /** One iteration of `set_perp_meta`: the asset with id `asset`. */
  function AddPerp(t: Tables, info: PerpAsset, asset: int): (r: Tables)
    ensures r.coinToAsset == t.coinToAsset[info.name := asset]
    ensures r.nameToCoin == t.nameToCoin[info.name := info.name]
    ensures r.szDecimals == t.szDecimals[asset := info.szDecimals]
  {
    Tables(t.coinToAsset[info.name := asset], t.nameToCoin[info.name := info.name],
           t.szDecimals[asset := info.szDecimals])
  }

  /** `set_perp_meta` over the first `|a|` universe entries; entry `i` gets id `i + offset`. */
  function PerpFold(t: Tables, a: seq<PerpAsset>, offset: int): Tables
    decreases |a|
  {
    if a == [] then t
    else AddPerp(PerpFold(t, a[..|a| - 1], offset), a[|a| - 1], |a| - 1 + offset)
  }

  /** `set_perp_meta(meta, offset)`: a meta without a universe changes nothing. */
  function SetPerpMetaTables(t: Tables, meta: Meta, offset: int): Tables {
    if meta.universe.None? then t else PerpFold(t, meta.universe.value, offset)
  }

  lemma {:induction false} PerpFoldKeepsCanonical(t: Tables, a: seq<PerpAsset>, offset: int)
    requires Canonical(t)
    ensures Canonical(PerpFold(t, a, offset))
    decreases |a|
  {
    if a != [] {
      PerpFoldKeepsCanonical(t, a[..|a| - 1], offset);
      var prev := PerpFold(t, a[..|a| - 1], offset);
      var t' := PerpFold(t, a, offset);
      var name := a[|a| - 1].name;
      forall n | n in t'.nameToCoin
        ensures var c := t'.nameToCoin[n];
          c in t'.nameToCoin && t'.nameToCoin[c] == c && c in t'.coinToAsset
      {
        if n != name {
          assert t'.nameToCoin[n] == prev.nameToCoin[n];
        }
      }
    }
  }

  /**
    After `set_perp_meta`, entry `i` names itself, its id `i + offset` has
    its size decimals, and if no later entry repeats its name its coin has
    that id.
   */
  lemma {:induction false} PerpFoldEntries(t: Tables, a: seq<PerpAsset>, offset: int, i: nat)
    requires i < |a|
    ensures var r := PerpFold(t, a, offset);
      a[i].name in r.nameToCoin && r.nameToCoin[a[i].name] == a[i].name && a[i].name in r.coinToAsset
    ensures var r := PerpFold(t, a, offset);
      i + offset in r.szDecimals && r.szDecimals[i + offset] == a[i].szDecimals
    ensures (forall j :: i < j < |a| ==> a[j].name != a[i].name) ==>
      PerpFold(t, a, offset).coinToAsset[a[i].name] == i + offset
    decreases |a|
  {
    var init := a[..|a| - 1];
    if i < |a| - 1 {
      assert init[i] == a[i];
      PerpFoldEntries(t, init, offset, i);
      if (forall j :: i < j < |a| ==> a[j].name != a[i].name) {
        assert a[|a| - 1].name != a[i].name;
        assert forall j :: i < j < |init| ==> init[j].name != init[i].name by {
          forall j | i < j < |init| ensures init[j].name != init[i].name {
            assert init[j] == a[j];
          }
        }
      }
    }
  }

  /** Names outside the universe keep their coin and their asset id. */
  lemma {:induction false} PerpFoldKeepsOthers(t: Tables, a: seq<PerpAsset>, offset: int, n: string)
    requires forall i :: 0 <= i < |a| ==> a[i].name != n
    ensures var r := PerpFold(t, a, offset);
      && (n in r.nameToCoin <==> n in t.nameToCoin)
      && (n in t.nameToCoin ==> r.nameToCoin[n] == t.nameToCoin[n])
      && (n in r.coinToAsset <==> n in t.coinToAsset)
      && (n in t.coinToAsset ==> r.coinToAsset[n] == t.coinToAsset[n])
    decreases |a|
  {
    if a != [] {
      var init := a[..|a| - 1];
      assert forall i :: 0 <= i < |init| ==> init[i].name != n by {
        forall i | 0 <= i < |init| ensures init[i].name != n {
          assert init[i] == a[i];
        }
      }
      PerpFoldKeepsOthers(t, init, offset, n);
      assert a[|a| - 1].name != n;
    }
  }

  /** The loop of `set_perp_meta` over a table value. */
  method BuildPerpTables(t: Tables, a: seq<PerpAsset>, offset: int) returns (r: Tables)
    ensures r == PerpFold(t, a, offset)
  {
    r := t;
    var i := 0;
    while i < |a|
      invariant 0 <= i <= |a|
      invariant r == PerpFold(t, a[..i], offset)
    {
      assert a[..i + 1][..i] == a[..i];
      r := AddPerp(r, a[i], i + offset);
      i := i + 1;
    }
    assert a[..i] == a;
  }

  // ---------------------------------------------------------------------------
  // Dex offsets

  /**
    `perp_dex_to_offset` from the builder dex list after its first element:
    builder `i` gets `110000 + i * 10000`; an entry without a name raises,
    which stops the loop and keeps the offsets assigned so far.
   */
  function DexOffsets(builders: seq<Option<string>>): map<string, int>
    decreases |builders|
  {
    if builders == [] then map["" := 0]
    else
      var prev := DexOffsets(builders[..|builders| - 1]);
      var i := |builders| - 1;
      if (exists j :: 0 <= j < i && builders[j].None?) then prev
      else match builders[i]
        case None => prev
        case Some(name) => prev[name := BuilderDexBase + i * BuilderDexStride]
  }

  /** What the loop sees: `perp_dexs()[1:]`, or nothing when the request raised. */
  function BuilderEntries(dexList: Option<seq<Option<string>>>): seq<Option<string>> {
    if dexList.None? || |dexList.value| == 0 then [] else dexList.value[1..]
  }

  /**
    The default dex keeps offset 0 unless a builder is named "", and a
    builder ahead of any nameless entry whose name no later builder repeats
    has offset `110000 + i * 10000`.
   */
  lemma {:induction false} DexOffsetsEntries(builders: seq<Option<string>>, i: nat)
    requires i < |builders| && builders[i].Some?
    requires forall j :: 0 <= j < i ==> builders[j].Some?
    requires forall j :: i < j < |builders| ==> builders[j] != builders[i]
    ensures builders[i].value in DexOffsets(builders)
    ensures DexOffsets(builders)[builders[i].value] == BuilderDexBase + i * BuilderDexStride
    decreases |builders|
  {
    var init := builders[..|builders| - 1];
    if i < |builders| - 1 {
      assert init[i] == builders[i];
      assert forall j :: 0 <= j < i ==> init[j].Some? by {
        forall j | 0 <= j < i ensures init[j].Some? {
          assert init[j] == builders[j];
        }
      }
      assert forall j :: i < j < |init| ==> init[j] != init[i] by {
        forall j | i < j < |init| ensures init[j] != init[i] {
          assert init[j] == builders[j];
        }
      }
      DexOffsetsEntries(init, i);
      assert builders[|builders| - 1] != builders[i];
    } else {
      assert !(exists j :: 0 <= j < i && builders[j].None?);
    }
  }

  lemma {:induction false} DexOffsetsDefault(builders: seq<Option<string>>)
    requires forall j :: 0 <= j < |builders| ==> builders[j] != Some("")
    ensures "" in DexOffsets(builders) && DexOffsets(builders)[""] == 0
    decreases |builders|
  {
    if builders != [] {
      var init := builders[..|builders| - 1];
      assert forall j :: 0 <= j < |init| ==> init[j] != Some("") by {
        forall j | 0 <= j < |init| ensures init[j] != Some("") {
          assert init[j] == builders[j];
        }
      }
      DexOffsetsDefault(init);
    }
  }

  /** The offset loop of `Info.__init__`. */
  method BuildDexOffsets(builders: seq<Option<string>>) returns (offsets: map<string, int>)
    ensures offsets == DexOffsets(builders)
  {
    offsets := map["" := 0];
    var i := 0;
    while i < |builders| && builders[i].Some?
      invariant 0 <= i <= |builders|
      invariant forall j :: 0 <= j < i ==> builders[j].Some?
      invariant offsets == DexOffsets(builders[..i])
    {
      assert builders[..i + 1][..i] == builders[..i];
      assert builders[..i + 1][i] == builders[i];
      offsets := offsets[builders[i].value := BuilderDexBase + i * BuilderDexStride];
      i := i + 1;
    }
    if i < |builders| {
      DexOffsetsStop(builders, i);
    } else {
      assert builders[..i] == builders;
    }
  }

  /** After the first nameless entry the offsets no longer change. */
  lemma {:induction false} DexOffsetsStop(builders: seq<Option<string>>, k: nat)
    requires k < |builders| && builders[k].None?
    ensures DexOffsets(builders) == DexOffsets(builders[..k])
    decreases |builders| - k
  {
    if |builders| == k + 1 {
      assert builders[..k + 1] == builders;
      var b := builders;
      assert b[..|b| - 1] == builders[..k];
    } else {
      var b := builders;
      var init := b[..|b| - 1];
      assert init[k] == b[k];
      assert init[..k] == b[..k];
      DexOffsetsStop(init, k);
      assert exists j :: 0 <= j < |b| - 1 && b[j].None? by {
        assert b[k].None?;
      }
    }
  }

  // ---------------------------------------------------------------------------
  // The dex loop

  /**
    The loop over `perp_dexs`: look up each dex's offset (an unknown dex
    raises), then load the given meta at offset 0 for the default dex when
    one was given, or the fetched meta at the dex's offset otherwise.  A
    request that failed yields `None`, on which `set_perp_meta` raises.
   */
  function PerpLoad(t: Tables, dexes: seq<string>, offsets: map<string, int>, meta: Option<Meta>,
                    fetch: string -> Option<Meta>): Result<Tables>
    decreases |dexes|
  {
    if dexes == [] then Ok(t)
    else
      match PerpLoad(t, dexes[..|dexes| - 1], offsets, meta, fetch)
      case Err(e) => Err(e)
      case Ok(t') =>
        var dex := dexes[|dexes| - 1];
        if dex !in offsets then Err(UnknownDex(dex))
        else if dex == "" && meta.Some? then Ok(SetPerpMetaTables(t', meta.value, 0))
        else
          match fetch(dex)
          case None => Err(NullMeta(dex))
          case Some(m) => Ok(SetPerpMetaTables(t', m, offsets[dex]))
  }

  lemma {:induction false} PerpLoadKeepsCanonical(t: Tables, dexes: seq<string>, offsets: map<string, int>,
                                                  meta: Option<Meta>, fetch: string -> Option<Meta>)
    requires Canonical(t)
    ensures PerpLoad(t, dexes, offsets, meta, fetch).Ok? ==> Canonical(PerpLoad(t, dexes, offsets, meta, fetch).value)
    decreases |dexes|
  {
    if dexes != [] {
      PerpLoadKeepsCanonical(t, dexes[..|dexes| - 1], offsets, meta, fetch);
      var prev := PerpLoad(t, dexes[..|dexes| - 1], offsets, meta, fetch);
      if prev.Ok? {
        var dex := dexes[|dexes| - 1];
        var om := if dex == "" && meta.Some? then meta else fetch(dex);
        if om.Some? && om.value.universe.Some? {
          var m := om.value;
          var off := if dex == "" && meta.Some? then 0 else if dex in offsets then offsets[dex] else 0;
          PerpFoldKeepsCanonical(prev.value, m.universe.value, off);
        }
      }
    }
  }

  /** An unknown dex in the list makes the whole load raise. */
  lemma {:induction false} PerpLoadUnknownDex(t: Tables, dexes: seq<string>, offsets: map<string, int>,
                                              meta: Option<Meta>, fetch: string -> Option<Meta>)
    requires exists k :: 0 <= k < |dexes| && dexes[k] !in offsets
    ensures PerpLoad(t, dexes, offsets, meta, fetch).Err?
    decreases |dexes|
  {
    var k :| 0 <= k < |dexes| && dexes[k] !in offsets;
    if k < |dexes| - 1 {
      var init := dexes[..|dexes| - 1];
      assert init[k] == dexes[k];
      PerpLoadUnknownDex(t, init, offsets, meta, fetch);
    }
  }

  /** The loop over `perp_dexs` on a table value. */
  method BuildPerpLoad(t: Tables, dexes: seq<string>, offsets: map<string, int>, meta: Option<Meta>,
                       fetch: string -> Option<Meta>) returns (r: Result<Tables>)
    ensures r == PerpLoad(t, dexes, offsets, meta, fetch)
  {
    var acc := t;
    var i := 0;
    while i < |dexes|
      invariant 0 <= i <= |dexes|
      invariant PerpLoad(t, dexes[..i], offsets, meta, fetch) == Ok(acc)
    {
      assert dexes[..i + 1][..i] == dexes[..i];
      var dex := dexes[i];
      if dex !in offsets {
        PerpLoadErrStays(t, dexes, offsets, meta, fetch, i + 1);
        return Err(UnknownDex(dex));
      }
      var m := if dex == "" && meta.Some? then meta else fetch(dex);
      if m.None? {
        PerpLoadErrStays(t, dexes, offsets, meta, fetch, i + 1);
        return Err(NullMeta(dex));
      }
      var offset := if dex == "" && meta.Some? then 0 else offsets[dex];
      if m.value.universe.Some? {
        acc := BuildPerpTables(acc, m.value.universe.value, offset);
      }
      i := i + 1;
    }
    assert dexes[..i] == dexes;
    r := Ok(acc);
  }

  lemma {:induction false} PerpLoadErrStays(t: Tables, dexes: seq<string>, offsets: map<string, int>,
                                            meta: Option<Meta>, fetch: string -> Option<Meta>, k: nat)
    requires k <= |dexes| && PerpLoad(t, dexes[..k], offsets, meta, fetch).Err?
    ensures PerpLoad(t, dexes, offsets, meta, fetch) == PerpLoad(t, dexes[..k], offsets, meta, fetch)
    decreases |dexes| - k
  {
    if k == |dexes| {
      assert dexes[..k] == dexes;
    } else {
      assert dexes[..k + 1][..k] == dexes[..k];
      PerpLoadErrStays(t, dexes, offsets, meta, fetch, k + 1);
    }
  }

  // ---------------------------------------------------------------------------
  // The whole table-building part of `Info.__init__`

  /** Whether the tables were created, and what they hold. */
  datatype Load = NotCreated | Created(tables: Tables) | Raised(error: InfoError)

  /**
    `perp_dexs` as the loop sees it: `[""]` when not given.  The builder
    list is only requested (and its result `dexList` only used) when
    `perp_dexs` was given.
   */
  function LoadTables(spot: SpotMeta, meta: Option<Meta>, perpDexs: Option<seq<string>>,
                      dexList: Option<seq<Option<string>>>, fetch: string -> Option<Meta>): Load
  {
    if Falsy(spot) then NotCreated
    else if spot.universe.None? then Created(EmptyTables)
    else
      match SpotFold(EmptyTables, spot.tokens, spot.universe.value)
      case Err(e) => Raised(e)
      case Ok(t) =>
        var offsets := if perpDexs.None? then map["" := 0] else DexOffsets(BuilderEntries(dexList));
        var dexes := if perpDexs.None? then [""] else perpDexs.value;
        match PerpLoad(t, dexes, offsets, meta, fetch)
        case Err(e) => Raised(e)
        case Ok(t') => Created(t')
  }

  /** Whatever the inputs, tables that were built satisfy the name table invariant. */
  lemma LoadTablesCanonical(spot: SpotMeta, meta: Option<Meta>, perpDexs: Option<seq<string>>,
                            dexList: Option<seq<Option<string>>>, fetch: string -> Option<Meta>)
    ensures var l := LoadTables(spot, meta, perpDexs, dexList, fetch);
      l.Created? ==> Canonical(l.tables)
  {
    if !Falsy(spot) && spot.universe.Some? {
      SpotFoldKeepsCanonical(EmptyTables, spot.tokens, spot.universe.value);
      var s := SpotFold(EmptyTables, spot.tokens, spot.universe.value);
      if s.Ok? {
        var offsets := if perpDexs.None? then map["" := 0] else DexOffsets(BuilderEntries(dexList));
        var dexes := if perpDexs.None? then [""] else perpDexs.value;
        PerpLoadKeepsCanonical(s.value, dexes, offsets, meta, fetch);
      }
    }
  }

  /**
    Without `perp_dexs` only the default dex is loaded: the given meta at
    offset 0, or the fetched one, whose failed request raises.
   */
  lemma DefaultDexOnly(spot: SpotMeta, meta: Option<Meta>, dexList: Option<seq<Option<string>>>,
                       fetch: string -> Option<Meta>)
    requires !Falsy(spot) && spot.universe.Some?
    requires SpotFold(EmptyTables, spot.tokens, spot.universe.value).Ok?
    ensures var t := SpotFold(EmptyTables, spot.tokens, spot.universe.value).value;
      var m := if meta.Some? then meta else fetch("");
      LoadTables(spot, meta, None, dexList, fetch)
        == if m.None? then Raised(NullMeta("")) else Created(SetPerpMetaTables(t, m.value, 0))
  {
    var t := SpotFold(EmptyTables, spot.tokens, spot.universe.value).value;
    assert [""][..0] == [];
    assert PerpLoad(t, [""][..0], map["" := 0], meta, fetch) == Ok(t);
  }

  // ---------------------------------------------------------------------------
  // Lookups and remapping

  /** What `name_to_asset` gives back: an asset id, or the error dictionary it returns. */
  datatype AssetLookup = Asset(asset: int) | ErrorDict(message: string)

  /** `name_to_asset(name)` on built tables. */
  function NameToAsset(t: Tables, name: string): Result<AssetLookup> {
    if name !in t.nameToCoin then Ok(ErrorDict(name + "不在name_to_coin字典中"))
    else
      var coin := t.nameToCoin[name];
      if coin !in t.coinToAsset then Err(MissingAsset(coin)) else Ok(Asset(t.coinToAsset[coin]))
  }

  /**
    On tables that keep the invariant, `name_to_asset` yields an id exactly
    for the known names, that of the coin the name stands for, and the error
    dictionary otherwise; it never raises.
   */
  lemma NameToAssetTotal(t: Tables, name: string)
    requires Canonical(t)
    ensures NameToAsset(t, name).Ok?
    ensures NameToAsset(t, name).value.Asset? <==> name in t.nameToCoin
    ensures name in t.nameToCoin ==>
      NameToAsset(t, name).value.asset == t.coinToAsset[t.nameToCoin[name]]
  {
  }

  /** The subscription types whose coin `_remap_coin_subscription` rewrites. */
  predicate Remappable(s: Subscription) {
    s.L2Book? || s.Trades? || s.Candle? || s.Bbo? || s.ActiveAssetCtx?
  }

  /** `_remap_coin_subscription`: rewrites the coin of the five types when it is a known name. */
  function Remap(nameToCoin: map<string, string>, s: Subscription): Subscription {
    if Remappable(s) && s.coin in nameToCoin then
      match s
      case Candle(coin, interval) => Candle(nameToCoin[coin], interval)
      case L2Book(coin) => L2Book(nameToCoin[coin])
      case Trades(coin) => Trades(nameToCoin[coin])
      case Bbo(coin) => Bbo(nameToCoin[coin])
      case ActiveAssetCtx(coin) => ActiveAssetCtx(nameToCoin[coin])
    else s
  }

  /**
    Remapping keeps the type and every field but the coin; it changes the
    coin only for the five types and only to the coin the name maps to.
   */
  lemma RemapChangesOnlyCoin(nameToCoin: map<string, string>, s: Subscription)
    ensures var r := Remap(nameToCoin, s);
      && (!Remappable(s) || s.coin !in nameToCoin ==> r == s)
      && (Remappable(s) && s.coin in nameToCoin ==> r.coin == nameToCoin[s.coin])
      && (s.Candle? ==> r.Candle? && r.interval == s.interval)
      && (s.L2Book? ==> r.L2Book?) && (s.Trades? ==> r.Trades?) && (s.Bbo? ==> r.Bbo?)
      && (s.ActiveAssetCtx? ==> r.ActiveAssetCtx?)
  {
  }

  /** On tables that keep the invariant, remapping a remapped subscription changes nothing. */
  lemma RemapIdempotent(t: Tables, s: Subscription)
    requires Canonical(t)
    ensures Remap(t.nameToCoin, Remap(t.nameToCoin, s)) == Remap(t.nameToCoin, s)
  {
    if Remappable(s) && s.coin in t.nameToCoin {
      var c := t.nameToCoin[s.coin];
      assert c in t.nameToCoin && t.nameToCoin[c] == c;
    }
  }

  // ---------------------------------------------------------------------------
  // The client object

  class Info {
    /** `None` when built with `skip_ws`. */
    const wsManager: WsManager.Manager?
    /** Whether `coin_to_asset` and the other tables exist as attributes. */
    var hasTables: bool
    /**
      The exception `__init__` raised while building the tables, if any; in
      that case Python leaves the caller with no object at all.
     */
    const raised: Option<InfoError>
    var coinToAsset: map<string, int>
    var nameToCoin: map<string, string>
    var assetToSzDecimals: map<int, int>

    function TablesOf(): Tables
      reads this
    {
      Tables(coinToAsset, nameToCoin, assetToSzDecimals)
    }

    /** Tables that exist keep the name invariant. */
    ghost predicate Valid()
      reads this
    {
      hasTables ==> Canonical(TablesOf())
    }

    /**
      `Info.__init__` as far as the tables go: an optional websocket manager
      (a fresh one with auto-reconnect unless `skipWs`), then the tables
      built from the spot meta, the given perpetual meta, `perp_dexs` and
      the results of the requests.  An exception leaves no usable object;
      the model records it in `raised` and leaves the tables empty.
     */
    constructor (skipWs: bool, spot: SpotMeta, meta: Option<Meta>, perpDexs: Option<seq<string>>,
                 dexList: Option<seq<Option<string>>>, fetch: string -> Option<Meta>)
      ensures skipWs <==> wsManager == null
      ensures wsManager != null ==> fresh(wsManager) && wsManager.autoReconnect
      ensures var l := LoadTables(spot, meta, perpDexs, dexList, fetch);
        && hasTables == !l.NotCreated?
        && (l.Created? ==> TablesOf() == l.tables)
        && raised == (if l.Raised? then Some(l.error) else None)
      ensures Valid()
    {
      if skipWs {
        wsManager := null;
      } else {
        wsManager := new WsManager.Manager(true);
      }
      var l := Load(spot, meta, perpDexs, dexList, fetch);
      hasTables := !l.NotCreated?;
      raised := if l.Raised? then Some(l.error) else None;
      var t := if l.Created? then l.tables else EmptyTables;
      coinToAsset, nameToCoin, assetToSzDecimals := t.coinToAsset, t.nameToCoin, t.szDecimals;
      LoadTablesCanonical(spot, meta, perpDexs, dexList, fetch);
    }

    /** The table-building steps of the constructor on values. */
    static method Load(spot: SpotMeta, meta: Option<Meta>, perpDexs: Option<seq<string>>,
                       dexList: Option<seq<Option<string>>>, fetch: string -> Option<Meta>) returns (l: Load)
      ensures l == LoadTables(spot, meta, perpDexs, dexList, fetch)
    {
      if Falsy(spot) {
        return NotCreated;
      }
      if spot.universe.None? {
        return Created(EmptyTables);
      }
      var s := BuildSpotTables(spot.tokens, spot.universe.value);
      if s.Err? {
        return Raised(s.error);
      }
      var offsets := map["" := 0];
      var dexes := [""];
      if perpDexs.Some? {
        offsets := BuildDexOffsets(BuilderEntries(dexList));
        dexes := perpDexs.value;
      }
      var p := BuildPerpLoad(s.value, dexes, offsets, meta, fetch);
      if p.Err? {
        return Raised(p.error);
      }
      l := Created(p.value);
    }

    /**
      `set_perp_meta(meta, offset)`: nothing without a universe; otherwise
      the entries are loaded at `offset`, and the first of them raises
      `AttributeError` when the tables were never created.
     */
    method SetPerpMeta(meta: Meta, offset: int) returns (r: Result<()>)
      modifies this
      ensures r.Err? <==> meta.universe.Some? && |meta.universe.value| > 0 && !old(hasTables)
      ensures r.Err? ==> r.error == NoTables
      ensures hasTables == old(hasTables)
      ensures r.Ok? ==> TablesOf() == SetPerpMetaTables(old(TablesOf()), meta, offset)
      ensures r.Err? ==> TablesOf() == old(TablesOf())
      ensures old(Valid()) ==> Valid()
    {
      if meta.universe.None? || |meta.universe.value| == 0 {
        return Ok(());
      }
      if !hasTables {
        return Err(NoTables);
      }
      if Valid() {
        PerpFoldKeepsCanonical(TablesOf(), meta.universe.value, offset);
      }
      var t := BuildPerpTables(TablesOf(), meta.universe.value, offset);
      coinToAsset, nameToCoin, assetToSzDecimals := t.coinToAsset, t.nameToCoin, t.szDecimals;
      r := Ok(());
    }

    /**
      `name_to_asset`; `AttributeError` when the tables were never created,
      `KeyError` when a name's coin has no id, which tables keeping the
      invariant rule out.
     */
    function NameToAssetOf(name: string): (r: Result<AssetLookup>)
      reads this
      ensures !hasTables ==> r == Err(NoTables)
      ensures hasTables && name !in nameToCoin ==> r.Ok? && r.value.ErrorDict?
      ensures hasTables && name in nameToCoin && nameToCoin[name] in coinToAsset ==>
        r == Ok(Asset(coinToAsset[nameToCoin[name]]))
      ensures hasTables && name in nameToCoin && nameToCoin[name] !in coinToAsset ==>
        r == Err(MissingAsset(nameToCoin[name]))
      ensures Valid() && hasTables ==> (r.Ok? && (r.value.Asset? <==> name in nameToCoin))
    {
      if !hasTables then Err(NoTables) else NameToAsset(TablesOf(), name)
    }

    /**
      `_remap_coin_subscription` as `subscribe` and `unsubscribe` apply it:
      reading `name_to_coin` raises when the tables were never created, but
      only for the five remapped types.
     */
    function RemapOf(s: Subscription): (r: Result<Subscription>)
      reads this
      ensures r.Err? <==> Remappable(s) && !hasTables
      ensures r.Ok? && hasTables ==> r.value == Remap(nameToCoin, s)
      ensures r.Ok? && !hasTables ==> r.value == s
    {
      if Remappable(s) && !hasTables then Err(NoTables)
      else if !hasTables then Ok(s)
      else Ok(Remap(nameToCoin, s))
    }

    /**
      `subscribe`: remaps the coin, then fails without a websocket manager
      or hands the remapped subscription to the manager with a fresh id,
      with the manager's `subscribe` effect on its state.
     */
    method Subscribe(s: Subscription, callback: WsManager.Callback, sendOk: bool) returns (r: Result<int>)
      modifies wsManager
      ensures RemapOf(s).Err? ==> r == Err(NoTables) && (wsManager != null ==> unchanged(wsManager))
      ensures RemapOf(s).Ok? && wsManager == null ==> r == Err(NoWsManager)
      ensures RemapOf(s).Ok? && wsManager != null ==>
        var sub := RemapOf(s).value;
        && r.Ok? && r.value == old(wsManager.subscriptionIdCounter) + 1
        && wsManager.subscriptionIdCounter == r.value
        && var e := WsManager.Entry(sub, WsManager.ActiveSubscription(callback, r.value));
        && (if !old(wsManager.wsReady) || !old(wsManager.isConnected) then
              && wsManager.queued == old(wsManager.queued) + [e]
              && wsManager.active == old(wsManager.active)
              && wsManager.all == old(wsManager.all) && wsManager.sent == old(wsManager.sent)
            else
              && wsManager.active == WsManager.Append(old(wsManager.active), Identifier(sub), e.active)
              && (sendOk ==>
                    && wsManager.sent == old(wsManager.sent) + [WsManager.SubscribeFrame(sub)]
                    && wsManager.queued == old(wsManager.queued)
                    && wsManager.all == (if WsManager.HasId(old(wsManager.all), r.value) then old(wsManager.all)
                                         else old(wsManager.all) + [e]))
              && (!sendOk ==>
                    && wsManager.sent == old(wsManager.sent)
                    && wsManager.queued == old(wsManager.queued) + [e]
                    && wsManager.all == old(wsManager.all)))
        && wsManager.FlagsOf() == old(wsManager.FlagsOf())
        && wsManager.delivered == old(wsManager.delivered) && wsManager.waits == old(wsManager.waits)
        && wsManager.sockets == old(wsManager.sockets) && wsManager.closeRequests == old(wsManager.closeRequests)
    {
      var remapped := RemapOf(s);
      if remapped.Err? {
        return Err(remapped.error);
      }
      if wsManager == null {
        return Err(NoWsManager);
      }
      var id := wsManager.Subscribe(remapped.value, callback, None, sendOk);
      r := Ok(id);
    }

    /**
      `unsubscribe`: remaps the coin, then fails without a websocket manager
      or asks the manager to drop the id under the remapped subscription's
      topic, with the manager's `unsubscribe` effect on its state.
     */
    method Unsubscribe(s: Subscription, subscriptionId: int, sendOk: bool) returns (r: Result<bool>)
      modifies wsManager
      ensures RemapOf(s).Err? ==> r == Err(NoTables) && (wsManager != null ==> unchanged(wsManager))
      ensures RemapOf(s).Ok? && wsManager == null ==> r == Err(NoWsManager)
      ensures RemapOf(s).Ok? && wsManager != null ==>
        var sub := RemapOf(s).value;
        var ident := Identifier(sub);
        var before := WsManager.Lookup(old(wsManager.active), ident);
        var after := WsManager.WithoutId(before, subscriptionId);
        && r.Ok?
        && (r.value <==> exists a :: a in before && a.subscriptionId == subscriptionId)
        && wsManager.active == old(wsManager.active)[ident := after]
        && wsManager.sent == (if |after| == 0 && old(wsManager.isConnected) && old(wsManager.wsReady) && sendOk
                              then old(wsManager.sent) + [WsManager.UnsubscribeFrame(sub)] else old(wsManager.sent))
        && wsManager.queued == WsManager.EntriesWithoutId(old(wsManager.queued), subscriptionId)
        && wsManager.all == WsManager.EntriesWithoutId(old(wsManager.all), subscriptionId)
        && !WsManager.HasId(wsManager.all, subscriptionId)
        && !WsManager.HasId(wsManager.queued, subscriptionId)
        && wsManager.FlagsOf() == old(wsManager.FlagsOf())
        && wsManager.subscriptionIdCounter == old(wsManager.subscriptionIdCounter)
        && wsManager.delivered == old(wsManager.delivered) && wsManager.waits == old(wsManager.waits)
        && wsManager.sockets == old(wsManager.sockets) && wsManager.closeRequests == old(wsManager.closeRequests)
    {
      var remapped := RemapOf(s);
      if remapped.Err? {
        return Err(remapped.error);
      }
      if wsManager == null {
        return Err(NoWsManager);
      }
      var removed := wsManager.Unsubscribe(remapped.value, subscriptionId, sendOk);
      r := Ok(removed);
    }
  }
}

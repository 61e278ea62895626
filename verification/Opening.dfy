/** From the balances a caller gives for a new channel to the channel's allocation, and back
    (session/session.go and session/channel.go). */
module Opening {
  import opened Wrappers
  import opened Currencies
  import opened CurrencyRoundTrip
  import opened RegistrySpec
  import opened RegistryObjects
  import opened PeerCacheSpec

  /** An amount as given by the caller: a decimal number, unless the text is not one. */
  type Amount = Option<Decimal>

  datatype BalInfo = BalInfo(currencies: seq<string>, parts: seq<string>, bals: seq<seq<Amount>>)

  datatype Allocation = Allocation(assets: seq<Address>, balances: seq<seq<int>>)

  datatype OpenError =
    | PeersNotFound(aliases: seq<string>)
    | RepeatedPeerAlias
    | EntryForSelfNotFound
    | LengthMismatch
    | CurrencyNotFound(symbol: string)
    | InvalidAmount(amount: Amount)

  const OWN_ALIAS := "self"

  // ----- putting the own alias first

  /** The last position of the own alias, or 0 if there is none. */
  function OwnIdx(parts: seq<string>): (k: nat)
    ensures |parts| > 0 ==> k < |parts|
    ensures OWN_ALIAS in parts ==> parts[k] == OWN_ALIAS && OWN_ALIAS !in parts[k + 1..]
    ensures OWN_ALIAS !in parts ==> k == 0
  {
    if parts == [] then 0
    else if parts[|parts| - 1] == OWN_ALIAS then |parts| - 1
    else OwnIdx(parts[..|parts| - 1])
  }

  /** Exchanging the entry at k with the first one. */
  function SwapFirst<T>(s: seq<T>, k: nat): (r: seq<T>)
    requires k < |s| || k == 0
  {
    if k == 0 then s else s[0 := s[k]][k := s[0]]
  }

  /** Where the entry at i goes when k is exchanged with the first one. */
  function Moved(i: nat, k: nat): nat {
    if i == 0 then k else if i == k then 0 else i
  }

  predicate Distinct<T(==)>(s: seq<T>) {
    forall i, j :: 0 <= i < j < |s| ==> s[i] != s[j]
  }

  /** The own alias and its column of amounts change places with the first ones, in place. */
  method SanitizeBalInfo(parts: array<string>, bals: seq<array<Amount>>)
    requires Distinct(bals)
    requires OwnIdx(parts[..]) != 0 ==> forall i :: 0 <= i < |bals| ==> OwnIdx(parts[..]) < bals[i].Length
    modifies parts, bals
    ensures parts[..] == SwapFirst(old(parts[..]), OwnIdx(old(parts[..])))
    ensures forall i :: 0 <= i < |bals| ==>
      bals[i][..] == if OwnIdx(old(parts[..])) == 0 then old(bals[i][..])
                     else SwapFirst(old(bals[i][..]), OwnIdx(old(parts[..])))
    ensures var k := OwnIdx(old(parts[..]));
      && (parts.Length > 0 ==> parts[0] == old(parts[..])[k] && parts[k] == old(parts[..])[0])
      && (forall j :: 0 < j < parts.Length && j != k ==> parts[j] == old(parts[..])[j])
      && forall i :: 0 <= i < |bals| ==>
           && (k != 0 ==> bals[i][0] == old(bals[i][..])[k] && bals[i][k] == old(bals[i][..])[0])
           && (forall j :: 0 < j < bals[i].Length && j != k ==> bals[i][j] == old(bals[i][..])[j])
           && (k == 0 ==> bals[i][..] == old(bals[i][..]))
  {
    var ownIdx := FindOwnIdx(parts);
    if ownIdx != 0 {
      parts[ownIdx] := parts[0];
      parts[0] := OWN_ALIAS;
      for i := 0 to |bals|
        invariant parts[..] == SwapFirst(old(parts[..]), ownIdx)
        invariant forall j :: 0 <= j < i ==> bals[j][..] == SwapFirst(old(bals[j][..]), ownIdx)
        invariant forall j :: i <= j < |bals| ==> bals[j][..] == old(bals[j][..])
      {
        SwapAmounts(bals[i], ownIdx);
      }
    }
  }

  method FindOwnIdx(parts: array<string>) returns (ownIdx: nat)
    ensures ownIdx == OwnIdx(parts[..])
  {
    ownIdx := 0;
    for idx := 0 to parts.Length
      invariant ownIdx == OwnIdx(parts[..idx])
    {
      assert parts[..idx + 1][..idx] == parts[..idx];
      if parts[idx] == OWN_ALIAS {
        ownIdx := idx;
      }
    }
    assert parts[..parts.Length] == parts[..];
  }

  method SwapAmounts(row: array<Amount>, ownIdx: nat)
    requires 0 < ownIdx < row.Length
    modifies row
    ensures row[..] == SwapFirst(old(row[..]), ownIdx)
  {
    var ownAmount := row[ownIdx];
    row[ownIdx] := row[0];
    row[0] := ownAmount;
  }

  lemma MovedEntry<T>(s: seq<T>, k: nat, i: nat)
    requires k < |s| && i < |s|
    ensures Moved(i, k) < |s| && SwapFirst(s, k)[Moved(i, k)] == s[i]
  {
  }

  /** Sanitising puts the own alias first and keeps every other pairing of alias and amount. */
  lemma SanitizedPairs(parts: seq<string>, row: seq<Amount>, i: nat)
    requires OwnIdx(parts) < |row| && i < |parts| && i < |row|
    ensures var k := OwnIdx(parts);
      && Moved(i, k) < |parts| && Moved(i, k) < |row|
      && SwapFirst(parts, k)[Moved(i, k)] == parts[i]
      && SwapFirst(row, k)[Moved(i, k)] == row[i]
      && ("self" in parts ==> SwapFirst(parts, k)[0] == "self")
  {
    MovedEntry(parts, OwnIdx(parts), i);
    MovedEntry(row, OwnIdx(parts), i);
    MovedEntry(parts, OwnIdx(parts), OwnIdx(parts));
  }

  predicate OwnAtMostOnce(parts: seq<string>) {
    forall i, j :: 0 <= i < j < |parts| ==> parts[i] != OWN_ALIAS || parts[j] != OWN_ALIAS
  }

  lemma OwnIdxZero(parts: seq<string>)
    requires |parts| > 0
    ensures OwnIdx(parts) == 0 <==> forall j :: 1 <= j < |parts| ==> parts[j] != OWN_ALIAS
  {
  }

  /** The own alias is not repeated exactly when it is nowhere but at its last position. */
  lemma OnlyAtOwnIdx(parts: seq<string>)
    requires OWN_ALIAS in parts
    ensures OwnAtMostOnce(parts) <==> forall j :: 0 <= j < |parts| && j != OwnIdx(parts) ==> parts[j] != OWN_ALIAS
  {
  }

  /** After exchanging, an alias is only in the first place exactly when it was only at k before. */
  lemma OnlyFirstAfterSwap(parts: seq<string>, k: nat, own: string)
    requires k < |parts| && parts[k] == own
    ensures SwapFirst(parts, k)[0] == own
    ensures (forall j :: 1 <= j < |parts| ==> SwapFirst(parts, k)[j] != own) <==>
            (forall j :: 0 <= j < |parts| && j != k ==> parts[j] != own)
  {
    var again := SwapFirst(parts, k);
    if forall j :: 1 <= j < |parts| ==> again[j] != own {
      forall j | 0 <= j < |parts| && j != k ensures parts[j] != own {
        assert again[if j == 0 then k else j] == parts[j];
      }
    }
  }

  lemma SwapSame(s: seq<string>, k: nat)
    requires k < |s| && s[0] == s[k]
    ensures SwapFirst(s, k) == s
  {
  }

  /** Sanitising again never changes the aliases. It leaves the amounts alone too, whatever they are,
      exactly when the own alias is not repeated. */
  lemma SanitizeTwice(parts: seq<string>)
    requires |parts| > 0
    ensures var k := OwnIdx(parts);
      var again := SwapFirst(parts, k);
      && SwapFirst(again, OwnIdx(again)) == again
      && ((forall row: seq<Amount> :: |row| == |parts| ==>
             SwapFirst(SwapFirst(row, k), OwnIdx(again)) == SwapFirst(row, k)) <==> OwnAtMostOnce(parts))
  {
    var k := OwnIdx(parts);
    var again := SwapFirst(parts, k);
    SecondPassIdx(parts);
    if OwnIdx(again) != 0 {
      var row := RowNotFixed(|parts|, k, OwnIdx(again));
    }
  }

  /** Some row is not left alone by a second exchange with another entry than the first. */
  lemma RowNotFixed(n: nat, k: nat, again: nat) returns (row: seq<Amount>)
    requires k < n && 0 < again < n
    ensures |row| == n && SwapFirst(SwapFirst(row, k), again) != SwapFirst(row, k)
  {
    var sane := seq(n, i => if i == 0 then None else Some(Decimal(0, 0)));
    row := SwapFirst(sane, k);
    assert SwapFirst(row, k) == sane;
    assert SwapFirst(sane, again)[0] != sane[0];
  }

  /** The second pass finds the own alias at index 0 exactly when it is not repeated. */
  lemma SecondPassIdx(parts: seq<string>)
    requires |parts| > 0
    ensures var again := SwapFirst(parts, OwnIdx(parts));
      && SwapFirst(again, OwnIdx(again)) == again
      && (OwnIdx(again) == 0 <==> OwnAtMostOnce(parts))
  {
    var k := OwnIdx(parts);
    var again := SwapFirst(parts, k);
    if OWN_ALIAS in parts {
      OnlyFirstAfterSwap(parts, k, OWN_ALIAS);
      OwnIdxZero(again);
      OnlyAtOwnIdx(parts);
      SwapSame(again, OwnIdx(again));
    }
  }

  /** With the own alias in the list twice, the second pass exchanges the amounts again. */
  lemma SanitizeTwiceWithRepeatedSelf(a: Amount, b: Amount)
    requires a != b
    ensures var parts := [OWN_ALIAS, OWN_ALIAS];
      OwnIdx(parts) == 1 && SwapFirst(parts, 1) == parts && SwapFirst([a, b], 1) != [a, b]
  {
    assert [OWN_ALIAS, OWN_ALIAS][1] == OWN_ALIAS;
    assert SwapFirst([a, b], 1)[0] == b;
  }

  // ----- resolving the aliases

  /** The aliases that are not known, in order. */
  function Missing(aliases: seq<string>, peers: map<string, PeerID>): seq<string> {
    if aliases == [] then []
    else
      var a := aliases[|aliases| - 1];
      Missing(aliases[..|aliases| - 1], peers) + if a in peers then [] else [a]
  }

  /** What stands in a sequence at these increasing indices. */
  predicate Picks<T(==)>(s: seq<T>, idxs: seq<nat>, picked: seq<T>) {
    && |picked| == |idxs|
    && (forall i :: 0 <= i < |idxs| ==> idxs[i] < |s| && picked[i] == s[idxs[i]])
    && forall i, j :: 0 <= i < j < |idxs| ==> idxs[i] < idxs[j]
  }

  lemma PicksSnoc<T>(s: seq<T>, x: T, idxs: seq<nat>, picked: seq<T>)
    requires Picks(s, idxs, picked)
    ensures Picks(s + [x], idxs, picked) && Picks(s + [x], idxs + [|s|], picked + [x])
    ensures |s| !in idxs
  {
  }

  predicate ExactlyUnknown(aliases: seq<string>, peers: map<string, PeerID>, idxs: seq<nat>) {
    forall i: nat :: i < |aliases| ==> (i in idxs <==> aliases[i] !in peers)
  }

  lemma ExactlyUnknownSnoc(aliases: seq<string>, a: string, peers: map<string, PeerID>, idxs: seq<nat>)
    requires ExactlyUnknown(aliases, peers, idxs) && |aliases| !in idxs
    ensures ExactlyUnknown(aliases + [a], peers, if a in peers then idxs else idxs + [|aliases|])
  {
    var after := if a in peers then idxs else idxs + [|aliases|];
    forall i: nat | i < |aliases| + 1 ensures i in after <==> (aliases + [a])[i] !in peers {
      if i < |aliases| { assert (aliases + [a])[i] == aliases[i]; }
    }
  }

  /** The aliases reported are those at increasing indices: exactly those that are not known. */
  lemma {:induction false} MissingInOrder(aliases: seq<string>, peers: map<string, PeerID>) returns (idxs: seq<nat>)
    ensures Picks(aliases, idxs, Missing(aliases, peers)) && ExactlyUnknown(aliases, peers, idxs)
  {
    if aliases == [] {
      idxs := [];
    } else {
      var front, a := aliases[..|aliases| - 1], aliases[|aliases| - 1];
      idxs := MissingInOrder(front, peers);
      PicksSnoc(front, a, idxs, Missing(front, peers));
      ExactlyUnknownSnoc(front, a, peers, idxs);
      MissingSnoc(front, a, peers);
      assert front + [a] == aliases;
      assert Missing(front, peers) + [] == Missing(front, peers);
      idxs := if a in peers then idxs else idxs + [|front|];
    }
  }

  predicate AllKnown(aliases: seq<string>, peers: map<string, PeerID>) {
    forall i :: 0 <= i < |aliases| ==> aliases[i] in peers
  }

  lemma {:induction false} NoneMissing(aliases: seq<string>, peers: map<string, PeerID>)
    ensures Missing(aliases, peers) == [] <==> AllKnown(aliases, peers)
  {
    if aliases != [] {
      NoneMissing(aliases[..|aliases| - 1], peers);
    }
  }

  lemma MissingSnoc(aliases: seq<string>, a: string, peers: map<string, PeerID>)
    ensures Missing(aliases + [a], peers) == Missing(aliases, peers) + if a in peers then [] else [a]
  {
  }

  /** What is known after checking the aliases seen so far. */
  predicate Checked(seen: seq<string>, peers: map<string, PeerID>, known: set<string>,
                    missing: seq<string>, repeated: bool) {
    && missing == Missing(seen, peers)
    && (forall a :: a in known ==> a in seen)
    && (missing == [] ==> (forall a :: a in seen ==> a in known) && (repeated <==> !Distinct(seen)))
  }

  lemma CheckedSnoc(seen: seq<string>, a: string, peers: map<string, PeerID>,
                    known: set<string>, missing: seq<string>, repeated: bool)
    requires Checked(seen, peers, known, missing, repeated)
    ensures a in peers ==> Checked(seen + [a], peers, known + {a}, missing, repeated || a in known)
    ensures a !in peers ==> Checked(seen + [a], peers, known, missing + [a], repeated)
  {
    MissingSnoc(seen, a, peers);
    DistinctSnoc(seen, a);
  }

  /** All aliases are resolved, in order, exactly when all are known, none is repeated and the own one
      is among them; otherwise missing ones are reported before repeated ones, and those before the
      lack of the own alias. */
  method RetrievePartIDs(aliases: seq<string>, peers: map<string, PeerID>)
    returns (r: Result<seq<PeerID>, OpenError>)
    ensures r.Ok? <==> AllKnown(aliases, peers) && Distinct(aliases) && OWN_ALIAS in aliases
    ensures r.Ok? ==> |r.value| == |aliases| && forall i :: 0 <= i < |aliases| ==> r.value[i] == peers[aliases[i]]
    ensures r.Err? ==>
      r.error == (if Missing(aliases, peers) != [] then PeersNotFound(Missing(aliases, peers))
                  else if !Distinct(aliases) then RepeatedPeerAlias
                  else EntryForSelfNotFound)
  {
    var known: set<string> := {};
    var partIDs: seq<Option<PeerID>> := [];
    var missing: seq<string>, repeated := [], false;
    var foundOwnAlias := false;
    for idx := 0 to |aliases|
      invariant foundOwnAlias <==> OWN_ALIAS in aliases[..idx]
      invariant Resolved(aliases[..idx], peers, partIDs)
      invariant Checked(aliases[..idx], peers, known, missing, repeated)
    {
      var alias := aliases[idx];
      ghost var seen := aliases[..idx];
      assert aliases[..idx + 1] == seen + [alias];
      ResolvedSnoc(seen, alias, peers, partIDs);
      CheckedSnoc(seen, alias, peers, known, missing, repeated);
      if alias == OWN_ALIAS {
        foundOwnAlias := true;
      }
      if alias !in peers {
        missing := missing + [alias];
        partIDs := partIDs + [None];
      } else {
        if alias in known {
          repeated := true;
        }
        known := known + {alias};
        partIDs := partIDs + [Some(peers[alias])];
      }
    }
    assert aliases[..|aliases|] == aliases;
    NoneMissing(aliases, peers);
    if missing != [] {
      return Err(PeersNotFound(missing));
    }
    if repeated {
      return Err(RepeatedPeerAlias);
    }
    if !foundOwnAlias {
      return Err(EntryForSelfNotFound);
    }
    return Ok(seq(|aliases|, i requires 0 <= i < |aliases| && partIDs[i].Some? => partIDs[i].value));
  }

  /** One slot for each alias, filled if the alias is known. */
  predicate Resolved(aliases: seq<string>, peers: map<string, PeerID>, partIDs: seq<Option<PeerID>>) {
    && |partIDs| == |aliases|
    && forall i :: 0 <= i < |aliases| ==> partIDs[i] == if aliases[i] in peers then Some(peers[aliases[i]]) else None
  }

  lemma ResolvedSnoc(aliases: seq<string>, a: string, peers: map<string, PeerID>, partIDs: seq<Option<PeerID>>)
    requires Resolved(aliases, peers, partIDs)
    ensures Resolved(aliases + [a], peers, partIDs + [if a in peers then Some(peers[a]) else None])
  {
  }

  lemma DistinctSnoc(s: seq<string>, a: string)
    ensures Distinct(s + [a]) <==> Distinct(s) && a !in s
  {
    var t := s + [a];
    assert forall i :: 0 <= i < |s| ==> s[i] == t[i];
    assert t[|s|] == a;
    if Distinct(t) {
      assert forall i :: 0 <= i < |s| ==> s[i] != a;
    }
  }

  // ----- the allocation

  /** The row of raw balances that a row of amounts stands for. */
  predicate IsParsedRow(row: seq<Amount>, raw: seq<int>, decimals: nat) {
    && |raw| == |row|
    && forall j :: 0 <= j < |row| ==> Parse(row[j], decimals) == Ok(raw[j])
  }

  /** Every registered asset has an interpreter, as the node guarantees between registrations. */
  predicate Covered(c: Contracts, r: Interpreters) {
    forall s :: s in c.currencies ==> s in r.currencies
  }

  /** Entry i of an allocation: the asset, the interpreter and the amounts of the i-th currency. */
  predicate IsEntry(c: Contracts, r: Interpreters, symbol: string, row: seq<Amount>,
                    asset: Address, currency: Currency, raw: seq<int>) {
    && AssetOf(c, symbol) == Some(asset)
    && symbol in r.currencies && r.currencies[symbol] == currency
    && IsParsedRow(row, raw, currency.decimals)
  }

  predicate IsAllocation(c: Contracts, r: Interpreters, info: BalInfo, currencies: seq<Currency>, a: Allocation) {
    && |info.currencies| == |info.bals| == |currencies| == |a.assets| == |a.balances|
    && forall i :: 0 <= i < |info.currencies| ==>
         IsEntry(c, r, info.currencies[i], info.bals[i], a.assets[i], currencies[i], a.balances[i])
  }

  predicate RowParses(row: seq<Amount>, decimals: nat) {
    forall j :: 0 <= j < |row| ==> Parse(row[j], decimals).Ok?
  }

  /** The i-th currency is known and all its amounts can be parsed. */
  predicate EntryUsable(c: Contracts, r: Interpreters, info: BalInfo, i: nat)
    requires i < |info.currencies| && i < |info.bals|
  {
    var s := info.currencies[i];
    AssetOf(c, s).Some? && s in r.currencies && RowParses(info.bals[i], r.currencies[s].decimals)
  }

  /** The first amount of a row that cannot be parsed. */
  predicate FirstUnparsable(row: seq<Amount>, decimals: nat, amount: Amount) {
    exists j :: 0 <= j < |row| && amount == row[j] && Parse(row[j], decimals).Err? && RowParses(row[..j], decimals)
  }

  method ParseRow(row: seq<Amount>, currency: Currency) returns (r: Result<seq<int>, OpenError>)
    ensures r.Ok? <==> RowParses(row, currency.decimals)
    ensures r.Ok? ==> IsParsedRow(row, r.value, currency.decimals)
    ensures r.Err? ==> r.error.InvalidAmount? && FirstUnparsable(row, currency.decimals, r.error.amount)
  {
    var raw: seq<int> := [];
    for j := 0 to |row|
      invariant |raw| == j
      invariant forall i :: 0 <= i < j ==> Parse(row[i], currency.decimals) == Ok(raw[i])
    {
      var amount := Parse(row[j], currency.decimals);
      if amount.Err? {
        assert RowParses(row[..j], currency.decimals);
        return Err(InvalidAmount(row[j]));
      }
      raw := raw + [amount.value];
    }
    return Ok(raw);
  }

  /** The allocation is made exactly when there is one row of amounts for each currency and every entry
      is usable; otherwise the first unusable entry is reported. */
  method MakeAllocation(info: BalInfo, contractRegistry: ContractRegistry, currencyRegistry: CurrencyRegistry)
    returns (r: Result<(seq<Currency>, Allocation), OpenError>)
    requires contractRegistry.Valid()
    requires Covered(contractRegistry.View(), currencyRegistry.View())
    ensures r.Ok? ==>
      IsAllocation(contractRegistry.View(), currencyRegistry.View(), info, r.value.0, r.value.1)
    ensures r.Err? && r.error.LengthMismatch? <==> |info.currencies| != |info.bals|
    ensures r.Err? && !r.error.LengthMismatch? ==>
      exists i :: 0 <= i < |info.currencies| == |info.bals|
        && !EntryUsable(contractRegistry.View(), currencyRegistry.View(), info, i)
        && (forall j :: 0 <= j < i ==> EntryUsable(contractRegistry.View(), currencyRegistry.View(), info, j))
        && (if AssetOf(contractRegistry.View(), info.currencies[i]).None?
            then r.error == CurrencyNotFound(info.currencies[i])
            else && info.currencies[i] in currencyRegistry.currencies && r.error.InvalidAmount?
                 && FirstUnparsable(info.bals[i], currencyRegistry.currencies[info.currencies[i]].decimals,
                                    r.error.amount))
  {
    if |info.currencies| != |info.bals| {
      return Err(LengthMismatch);
    }
    var assets: seq<Address>, currencies: seq<Currency>, balances: seq<seq<int>> := [], [], [];
    for i := 0 to |info.currencies|
      invariant |assets| == |currencies| == |balances| == i
      invariant forall j :: 0 <= j < i ==>
        && IsEntry(contractRegistry.View(), currencyRegistry.View(), info.currencies[j], info.bals[j],
                   assets[j], currencies[j], balances[j])
        && EntryUsable(contractRegistry.View(), currencyRegistry.View(), info, j)
    {
      var asset := contractRegistry.Asset(info.currencies[i]);
      if asset.None? {
        assert !EntryUsable(contractRegistry.View(), currencyRegistry.View(), info, i);
        return Err(CurrencyNotFound(info.currencies[i]));
      }
      var currency := currencyRegistry.currencies[info.currencies[i]];
      var row := ParseRow(info.bals[i], currency);
      if row.Err? {
        assert !EntryUsable(contractRegistry.View(), currencyRegistry.View(), info, i);
        return Err(row.error);
      }
      assets, currencies, balances := assets + [asset.value], currencies + [currency], balances + [row.value];
    }
    return Ok((currencies, Allocation(assets, balances)));
  }

  /** The interpreters of a list of assets, if all are registered. */
  predicate AreCurrencies(c: Contracts, r: Interpreters, assets: seq<Address>, currencies: seq<Currency>) {
    && |currencies| == |assets|
    && forall i :: 0 <= i < |assets| ==>
         && HasSymbol(c, assets[i], currencies[i].symbol)
         && currencies[i].symbol in r.currencies
         && r.currencies[currencies[i].symbol] == currencies[i]
  }

  predicate AllRegistered(c: Contracts, assets: seq<Address>) {
    forall i :: 0 <= i < |assets| ==> assets[i] in c.assets
  }

  method GetCurrencies(assets: seq<Address>, contractRegistry: ContractRegistry, currencyRegistry: CurrencyRegistry)
    returns (r: Option<seq<Currency>>)
    requires contractRegistry.Valid() && currencyRegistry.Valid()
    requires Covered(contractRegistry.View(), currencyRegistry.View())
    ensures r.Some? <==> AllRegistered(contractRegistry.View(), assets)
    ensures r.Some? ==> AreCurrencies(contractRegistry.View(), currencyRegistry.View(), assets, r.value)
  {
    var currencies: seq<Currency> := [];
    for i := 0 to |assets|
      invariant AreCurrencies(contractRegistry.View(), currencyRegistry.View(), assets[..i], currencies)
      invariant AllRegistered(contractRegistry.View(), assets[..i])
    {
      var symbol := contractRegistry.Symbol(assets[i]);
      if symbol.None? {
        return None;
      }
      assert HasSymbol(contractRegistry.View(), assets[i], symbol.value);
      currencies := currencies + [currencyRegistry.currencies[symbol.value]];
    }
    assert assets[..|assets|] == assets;
    return Some(currencies);
  }

  /** Registries that have grown: what was registered is still there, unchanged. */
  predicate Extends(c: Contracts, r: Interpreters, c': Contracts, r': Interpreters) {
    && (forall s :: s in c.currencies ==> AssetOf(c', s) == AssetOf(c, s))
    && (forall s :: s in r.currencies ==> s in r'.currencies && r'.currencies[s] == r.currencies[s])
  }

  /** Looking up the assets of an allocation, then or after further registrations, gives the currencies
      it was made with, in the same order. */
  lemma CurrenciesOfAllocation(c: Contracts, r: Interpreters, info: BalInfo, currencies: seq<Currency>,
                               a: Allocation, c': Contracts, r': Interpreters, found: seq<Currency>)
    requires ValidContracts(c) && ValidContracts(c') && Extends(c, r, c', r')
    requires IsAllocation(c, r, info, currencies, a)
    requires AreCurrencies(c', r', a.assets, found)
    ensures found == currencies
  {
    forall i | 0 <= i < |currencies| ensures found[i] == currencies[i] {
      assert IsEntry(c, r, info.currencies[i], info.bals[i], a.assets[i], currencies[i], a.balances[i]);
      assert HasSymbol(c', a.assets[i], info.currencies[i]);
      assert HasSymbol(c', a.assets[i], found[i].symbol);
      SymbolAndAssetInverse(c', a.assets[i]);
    }
  }

  // ----- rendering raw balances

  function PrintedRow(raw: seq<int>, decimals: nat): (row: seq<Amount>)
    ensures |row| == |raw|
    ensures forall j :: 0 <= j < |raw| ==> row[j] == Some(Print(raw[j], decimals))
  {
    seq(|raw|, j requires 0 <= j < |raw| => Some(Print(raw[j], decimals)))
  }

  method MakeBalInfoFromRawBal(parts: seq<string>, currencies: seq<Currency>, rawBal: seq<seq<int>>)
    returns (info: BalInfo)
    requires |rawBal| <= |currencies|
    ensures info.parts == parts && |info.currencies| == |currencies| && |info.bals| == |rawBal|
    ensures forall i :: 0 <= i < |currencies| ==>
      info.currencies[i] == if i < |rawBal| then currencies[i].symbol else ""
    ensures forall i :: 0 <= i < |rawBal| ==> info.bals[i] == PrintedRow(rawBal[i], currencies[i].decimals)
  {
    var symbols := seq(|currencies|, _ => "");
    var bals: seq<seq<Amount>> := [];
    for i := 0 to |rawBal|
      invariant |symbols| == |currencies| && |bals| == i
      invariant forall k :: 0 <= k < |currencies| ==> symbols[k] == if k < i then currencies[k].symbol else ""
      invariant forall k :: 0 <= k < i ==> bals[k] == PrintedRow(rawBal[k], currencies[k].decimals)
    {
      symbols := symbols[i := currencies[i].symbol];
      var row: seq<Amount> := [];
      for j := 0 to |rawBal[i]|
        invariant |row| == j
        invariant forall k :: 0 <= k < j ==> row[k] == Some(Print(rawBal[i][k], currencies[i].decimals))
      {
        row := row + [Some(Print(rawBal[i][j], currencies[i].decimals))];
      }
      bals := bals + [row];
    }
    return BalInfo(symbols, parts, bals);
  }

  /** Balance information that shows, for each asset, its symbol and its raw balances as text. */
  predicate Shows(c: Contracts, r: Interpreters, info: BalInfo, assets: seq<Address>, rawBal: seq<seq<int>>) {
    && |info.currencies| == |assets| == |rawBal| == |info.bals|
    && forall i :: 0 <= i < |assets| ==>
         && HasSymbol(c, assets[i], info.currencies[i])
         && info.currencies[i] in r.currencies
         && info.bals[i] == PrintedRow(rawBal[i], r.currencies[info.currencies[i]].decimals)
  }

  /** An amount that survives being shown and entered again. */
  predicate Showable(x: int, decimals: nat)
    requires PrintedUnit(decimals) > 0
  {
    x >= 1 && x % PrintedUnit(decimals) == 0
  }

  /** Rendering raw balances and allocating the result again reproduces a row exactly when each amount
      is a positive multiple of the printed unit: for currencies of up to sixteen decimals, when no
      amount is below one. */
  lemma RenderedRowReparsed(raw: seq<int>, decimals: nat)
    ensures PrintedUnit(decimals) > 0
    ensures IsParsedRow(PrintedRow(raw, decimals), raw, decimals) <==>
      forall j :: 0 <= j < |raw| ==> Showable(raw[j], decimals)
    ensures decimals <= DIVISION_PRECISION ==>
      (IsParsedRow(PrintedRow(raw, decimals), raw, decimals) <==> forall j :: 0 <= j < |raw| ==> raw[j] >= 1)
  {
    RoundTripExactly(0, decimals);
    var row := PrintedRow(raw, decimals);
    forall j | 0 <= j < |raw|
      ensures Parse(row[j], decimals) == Ok(raw[j]) <==> Showable(raw[j], decimals)
      ensures decimals <= DIVISION_PRECISION ==> (Showable(raw[j], decimals) <==> raw[j] >= 1)
    {
      RoundTripExactly(raw[j], decimals);
    }
  }

  /** The whole allocation, shown and entered again, is the same one exactly when every row is. */
  lemma RenderedAllocationReparsed(c: Contracts, r: Interpreters, info: BalInfo, currencies: seq<Currency>,
                                   a: Allocation, shown: BalInfo)
    requires ValidInterpreters(r) && IsAllocation(c, r, info, currencies, a)
    requires |shown.currencies| == |currencies| == |shown.bals|
    requires forall i :: 0 <= i < |currencies| ==>
      shown.currencies[i] == currencies[i].symbol && shown.bals[i] == PrintedRow(a.balances[i], currencies[i].decimals)
    ensures forall i :: 0 <= i < |currencies| ==> PrintedUnit(currencies[i].decimals) > 0
    ensures IsAllocation(c, r, shown, currencies, a) <==>
      forall i, j :: 0 <= i < |currencies| && 0 <= j < |a.balances[i]| ==>
        Showable(a.balances[i][j], currencies[i].decimals)
  {
    forall i | 0 <= i < |currencies|
      ensures PrintedUnit(currencies[i].decimals) > 0
      ensures IsEntry(c, r, shown.currencies[i], shown.bals[i], a.assets[i], currencies[i], a.balances[i]) <==>
        forall j :: 0 <= j < |a.balances[i]| ==> Showable(a.balances[i][j], currencies[i].decimals)
    {
      assert IsEntry(c, r, info.currencies[i], info.bals[i], a.assets[i], currencies[i], a.balances[i]);
      assert currencies[i].symbol == info.currencies[i];
      RenderedRowReparsed(a.balances[i], currencies[i].decimals);
    }
  }

  // ----- the pipeline

  lemma MovedRowParsed(row: seq<Amount>, k: nat, raw: seq<int>, decimals: nat)
    requires (k < |row| || k == 0) && IsParsedRow(SwapFirst(row, k), raw, decimals)
    ensures |raw| == |row|
    ensures forall i :: 0 <= i < |row| ==> Moved(i, k) < |row| && Parse(row[i], decimals) == Ok(raw[Moved(i, k)])
  {
    forall i | 0 <= i < |row| ensures Moved(i, k) < |row| && Parse(row[i], decimals) == Ok(raw[Moved(i, k)]) {
      MovedEntry(row, k, i);
    }
  }

  /** An allocation made from rows in which the first amount and the one at k have changed places. */
  lemma MovedAllocation(c: Contracts, r: Interpreters, info: BalInfo, currencies: seq<Currency>, a: Allocation,
                        rows: seq<seq<Amount>>, k: nat)
    requires IsAllocation(c, r, info, currencies, a) && |rows| == |info.bals|
    requires forall i :: 0 <= i < |rows| ==>
      (k < |rows[i]| || k == 0) && info.bals[i] == SwapFirst(rows[i], k)
    ensures forall i :: 0 <= i < |rows| ==>
      && AssetOf(c, info.currencies[i]) == Some(a.assets[i])
      && |a.balances[i]| == |rows[i]|
      && forall j :: 0 <= j < |rows[i]| ==>
           Moved(j, k) < |rows[i]| && Parse(rows[i][j], currencies[i].decimals) == Ok(a.balances[i][Moved(j, k)])
  {
    forall i | 0 <= i < |rows|
      ensures AssetOf(c, info.currencies[i]) == Some(a.assets[i]) && |a.balances[i]| == |rows[i]|
      ensures forall j :: 0 <= j < |rows[i]| ==>
        Moved(j, k) < |rows[i]| && Parse(rows[i][j], currencies[i].decimals) == Ok(a.balances[i][Moved(j, k)])
    {
      assert IsEntry(c, r, info.currencies[i], info.bals[i], a.assets[i], currencies[i], a.balances[i]);
      MovedRowParsed(rows[i], k, a.balances[i], currencies[i].decimals);
    }
  }

  /** Opening a channel up to the proposal. If it succeeds, this user is the first participant, and
      every other one keeps what the caller gave: the peer of alias i and, for every currency, the
      amount given for alias i, parsed, stand at the same place. */
  method PrepareOpening(currencies: seq<string>, parts: array<string>, bals: seq<array<Amount>>,
                        peers: map<string, PeerID>, contractRegistry: ContractRegistry,
                        currencyRegistry: CurrencyRegistry)
    returns (r: Result<(seq<PeerID>, seq<Currency>, Allocation), OpenError>)
    requires Distinct(bals)
    requires OwnIdx(parts[..]) != 0 ==> forall i :: 0 <= i < |bals| ==> OwnIdx(parts[..]) < bals[i].Length
    requires contractRegistry.Valid() && Covered(contractRegistry.View(), currencyRegistry.View())
    modifies parts, bals
    ensures r.Ok? ==>
      var given, k := old(parts[..]), OwnIdx(old(parts[..]));
      var (ids, currs, alloc) := r.value;
      && Distinct(given) && OWN_ALIAS in peers && k < |given| == |ids| && ids[0] == peers[OWN_ALIAS]
      && |currs| == |currencies| == |bals| == |alloc.balances| == |alloc.assets|
      && (forall i :: 0 <= i < |given| ==> given[i] in peers && ids[Moved(i, k)] == peers[given[i]])
      && (forall c :: 0 <= c < |currencies| ==>
            && AssetOf(contractRegistry.View(), currencies[c]) == Some(alloc.assets[c])
            && |alloc.balances[c]| == bals[c].Length
            && forall i :: 0 <= i < bals[c].Length ==>
                 Parse(old(bals[c][..])[i], currs[c].decimals) == Ok(alloc.balances[c][Moved(i, k)]))
  {
    ghost var given := parts[..];
    ghost var rows := seq(|bals|, c requires 0 <= c < |bals| reads bals => bals[c][..]);
    ghost var k := OwnIdx(given);
    SanitizeBalInfo(parts, bals);
    var sane := parts[..];
    var ids := RetrievePartIDs(sane, peers);
    if ids.Err? {
      return Err(ids.error);
    }
    assert k == 0 ==> sane == given;
    assert OWN_ALIAS in given;
    var info := BalInfo(currencies, sane, seq(|bals|, c requires 0 <= c < |bals| reads bals => bals[c][..]));
    var made := MakeAllocation(info, contractRegistry, currencyRegistry);
    if made.Err? {
      return Err(made.error);
    }
    var (currs, alloc) := made.value;
    SwapKeepsDistinct(given, k);
    forall i | 0 <= i < |given| ensures given[i] in peers && ids.value[Moved(i, k)] == peers[given[i]] {
      assert sane[Moved(i, k)] == given[i];
      assert given[i] in sane;
    }
    MovedAllocation(contractRegistry.View(), currencyRegistry.View(), info, currs, alloc, rows, k);
    return Ok((ids.value, currs, alloc));
  }

  lemma SwapKeepsDistinct(s: seq<string>, k: nat)
    requires k < |s|
    ensures Distinct(SwapFirst(s, k)) ==> Distinct(s)
  {
    var t := SwapFirst(s, k);
    if Distinct(t) {
      forall i, j | 0 <= i < j < |s| ensures s[i] != s[j] {
        assert t[Moved(i, k)] == s[i] && t[Moved(j, k)] == s[j] && Moved(i, k) != Moved(j, k);
      }
    }
  }
}

/** The two registries that map currency symbols to contracts and to amount interpreters, and the node
    that registers a currency in both. */
module RegistrySpec {
  import opened Wrappers
  import opened Currencies

  datatype Address = Address(hex: string)

  const ETH := "ETH"
  const ETH_MAX_DECIMALS: nat := 18

  /** The contract registry: the index of each symbol in the lists of assets and tokens. */
  datatype Contracts = Contracts(
    currencies: map<string, nat>, assets: seq<Address>, tokens: seq<Option<Address>>)

  /** The currency registry: the interpreters by symbol, and the symbols in the order of registration. */
  datatype Interpreters = Interpreters(symbols: seq<string>, currencies: map<string, Currency>)

  datatype RegistryError =
    | AssetERC20Registered(asset: Address, symbol: string)
    | InvalidContract
    | CurrencyExists
    | InvalidAddress

  /** What validating an asset contract on the chain gives: the token's symbol and decimals. */
  type Validation = Option<(string, nat)>

  // ----- the contract registry

  /** Some symbol stands for index i. */
  predicate HasIndex(c: Contracts, i: int) {
    exists s :: s in c.currencies && c.currencies[s] == i
  }

  /** Symbols and asset contracts correspond one to one, through the indices; there is one token slot
      for each, empty for ETH only. */
  predicate ValidContracts(c: Contracts) {
    && |c.tokens| == |c.assets|
    && (forall s :: s in c.currencies ==> c.currencies[s] < |c.assets|)
    && (forall s, t :: s in c.currencies && t in c.currencies && c.currencies[s] == c.currencies[t] ==> s == t)
    && (forall i :: 0 <= i < |c.assets| ==> HasIndex(c, i))
    && (forall i, j :: 0 <= i < j < |c.assets| ==> c.assets[i] != c.assets[j])
    && ETH in c.currencies && c.currencies[ETH] == 0
    && (forall i :: 0 <= i < |c.tokens| ==> (c.tokens[i].None? <==> i == 0))
  }

  function NewContracts(assetETH: Address): Contracts {
    Contracts(map[ETH := 0], [assetETH], [None])
  }

  lemma NewContractsValid(assetETH: Address)
    ensures ValidContracts(NewContracts(assetETH))
  {
    var c := NewContracts(assetETH);
    assert ETH in c.currencies && c.currencies[ETH] == 0;
    assert HasIndex(c, 0);
  }

  /** The asset registered for a symbol. */
  function AssetOf(c: Contracts, symbol: string): Option<Address> {
    if symbol in c.currencies && c.currencies[symbol] < |c.assets| then Some(c.assets[c.currencies[symbol]]) else None
  }

  /** The token of a symbol; ETH has none. */
  function TokenOf(c: Contracts, symbol: string): Option<Address> {
    if symbol in c.currencies && c.currencies[symbol] < |c.tokens| then c.tokens[c.currencies[symbol]] else None
  }

  /** A symbol whose registered asset is this one. */
  predicate HasSymbol(c: Contracts, asset: Address, symbol: string) {
    AssetOf(c, symbol) == Some(asset)
  }

  /** A successful registration appends the asset and its token. It is refused if the asset is
      registered, if the contract is not valid, or if the symbol read from the chain is registered. */
  function RegisterContract(c: Contracts, token: Address, asset: Address, v: Validation): Contracts {
    if asset in c.assets || v.None? || v.value.0 in c.currencies then c
    else Contracts(c.currencies[v.value.0 := |c.assets|], c.assets + [asset], c.tokens + [Some(token)])
  }

  /** A registration is made exactly if the asset is new, the contract is valid, and the symbol is new. The
      symbol then has this asset and this token; every other symbol keeps its own. */
  lemma RegisterContractEffect(c: Contracts, token: Address, asset: Address, v: Validation)
    requires ValidContracts(c)
    ensures var d := RegisterContract(c, token, asset, v);
      if asset !in c.assets && v.Some? && v.value.0 !in c.currencies
      then && d.currencies.Keys == c.currencies.Keys + {v.value.0}
           && AssetOf(d, v.value.0) == Some(asset) && TokenOf(d, v.value.0) == Some(token)
           && d.assets == c.assets + [asset]
           && forall s :: s in c.currencies ==> AssetOf(d, s) == AssetOf(c, s) && TokenOf(d, s) == TokenOf(c, s)
      else d == c
  {
  }

  lemma RegisterContractIndices(c: Contracts, token: Address, asset: Address, v: Validation, i: nat)
    requires forall j :: 0 <= j < |c.assets| ==> HasIndex(c, j)
    requires forall s :: s in c.currencies ==> c.currencies[s] < |c.assets|
    requires i < |RegisterContract(c, token, asset, v).assets|
    ensures HasIndex(RegisterContract(c, token, asset, v), i)
  {
    var d := RegisterContract(c, token, asset, v);
    if d != c && i == |c.assets| {
      assert v.value.0 in d.currencies && d.currencies[v.value.0] == i;
    } else {
      assert HasIndex(c, i);
      var s :| s in c.currencies && c.currencies[s] == i;
      assert s in d.currencies && d.currencies[s] == i;
    }
  }

  lemma RegisterContractValid(c: Contracts, token: Address, asset: Address, v: Validation)
    requires ValidContracts(c)
    ensures ValidContracts(RegisterContract(c, token, asset, v))
    ensures c.assets <= RegisterContract(c, token, asset, v).assets
    ensures forall s :: s in c.currencies ==>
      && AssetOf(RegisterContract(c, token, asset, v), s) == AssetOf(c, s)
      && TokenOf(RegisterContract(c, token, asset, v), s) == TokenOf(c, s)
  {
    var d := RegisterContract(c, token, asset, v);
    RegisterContractEffect(c, token, asset, v);
    forall i | 0 <= i < |d.assets| ensures HasIndex(d, i) {
      RegisterContractIndices(c, token, asset, v, i);
    }
  }

  /** `Symbol` and `Asset` are inverse to each other: every registered asset has exactly one symbol,
      and that symbol's asset is the one asked for. */
  lemma SymbolAndAssetInverse(c: Contracts, asset: Address)
    requires ValidContracts(c)
    ensures asset in c.assets <==> exists s :: HasSymbol(c, asset, s)
    ensures forall s, t :: HasSymbol(c, asset, s) && HasSymbol(c, asset, t) ==> s == t
  {
    if asset in c.assets {
      var i :| 0 <= i < |c.assets| && c.assets[i] == asset;
      assert HasIndex(c, i);
      var s :| s in c.currencies && c.currencies[s] == i;
      assert HasSymbol(c, asset, s);
    }
  }

  // ----- the currency registry

  predicate ValidInterpreters(r: Interpreters) {
    && (forall i, j :: 0 <= i < j < |r.symbols| ==> r.symbols[i] != r.symbols[j])
    && (forall s :: s in r.symbols ==> s in r.currencies)
    && (forall s :: s in r.currencies ==> s in r.symbols)
    && (forall s :: s in r.currencies ==> r.currencies[s].symbol == s)
  }

  function RegisterInterpreter(r: Interpreters, symbol: string, decimals: nat): Interpreters {
    if symbol in r.currencies then r
    else Interpreters(r.symbols + [symbol], r.currencies[symbol := Currency(symbol, decimals)])
  }

  // ----- both registries, under the node lock

  /** The two registries; `pending` is the currency of a registration between its two halves. The
      node lock lets one registration run at a time; the sessions read without that lock. */
  datatype Registries = Registries(
    contracts: Contracts, interpreters: Interpreters, pending: Option<(string, nat)>)

  datatype RegStep =
    | ContractHalf(token: Address, asset: Address, v: Validation)
    | InterpreterHalf

  function Next(r: Registries, s: RegStep): Registries {
    match s
    case ContractHalf(token, asset, v) =>
      if r.pending.Some? then r   // waits for the node lock
      else
        var c := RegisterContract(r.contracts, token, asset, v);
        r.(contracts := c, pending := if c != r.contracts then v else None)
    case InterpreterHalf =>
      match r.pending
      case None => r
      case Some(p) => r.(interpreters := RegisterInterpreter(r.interpreters, p.0, p.1), pending := None)
  }

  function Run(r: Registries, steps: seq<RegStep>): Registries {
    if steps == [] then r else Next(Run(r, steps[..|steps| - 1]), steps[|steps| - 1])
  }

  /** The registries of a new node: ETH is in both. */
  function NewRegistries(assetETH: Address): Registries {
    Registries(NewContracts(assetETH), RegisterInterpreter(Interpreters([], map[]), ETH, ETH_MAX_DECIMALS), None)
  }

  /** The i-th interpreter is that of the symbol with index i; the contract registry is ahead by the
      pending symbol, if there is one. */
  predicate InStep(r: Registries) {
    && ValidContracts(r.contracts) && ValidInterpreters(r.interpreters)
    && |r.contracts.assets| == |r.interpreters.symbols| + (if r.pending.Some? then 1 else 0)
    && (forall i :: 0 <= i < |r.interpreters.symbols| ==>
          && r.interpreters.symbols[i] in r.contracts.currencies
          && r.contracts.currencies[r.interpreters.symbols[i]] == i)
    && (r.pending.Some? ==>
          && r.pending.value.0 in r.contracts.currencies
          && r.contracts.currencies[r.pending.value.0] == |r.interpreters.symbols|)
  }

  lemma InStepContractHalf(r: Registries, token: Address, asset: Address, v: Validation)
    requires InStep(r)
    ensures InStep(Next(r, ContractHalf(token, asset, v)))
    ensures forall t :: t in r.contracts.currencies ==> t in Next(r, ContractHalf(token, asset, v)).contracts.currencies
  {
    RegisterContractValid(r.contracts, token, asset, v);
  }

  lemma InStepInterpreterHalf(r: Registries)
    requires InStep(r)
    ensures InStep(Next(r, InterpreterHalf)) && Next(r, InterpreterHalf).contracts == r.contracts
  {
    if r.pending.Some? {
      SymbolsInStep(r, r.pending.value.0);
    }
  }

  lemma InStepNext(r: Registries, s: RegStep)
    requires InStep(r)
    ensures InStep(Next(r, s))
    ensures forall t :: t in r.contracts.currencies ==> t in Next(r, s).contracts.currencies
  {
    match s
    case ContractHalf(token, asset, v) => InStepContractHalf(r, token, asset, v);
    case InterpreterHalf => InStepInterpreterHalf(r);
  }

  lemma {:induction false} InStepRun(r: Registries, steps: seq<RegStep>)
    requires InStep(r)
    ensures InStep(Run(r, steps))
    ensures forall t :: t in r.contracts.currencies ==> t in Run(r, steps).contracts.currencies
  {
    if steps != [] {
      InStepRun(r, steps[..|steps| - 1]);
      InStepNext(Run(r, steps[..|steps| - 1]), steps[|steps| - 1]);
    }
  }

  /** Registries in step hold the same symbols, except for the pending one. */
  lemma SymbolsInStep(r: Registries, s: string)
    requires InStep(r)
    ensures r.pending.Some? ==> r.pending.value.0 !in r.interpreters.currencies
    ensures s in r.interpreters.currencies <==>
      s in r.contracts.currencies && !(r.pending.Some? && r.pending.value.0 == s)
  {
    var symbols := r.interpreters.symbols;
    if s in r.contracts.currencies {
      var i := r.contracts.currencies[s];
      if i < |symbols| {
        assert r.contracts.currencies[symbols[i]] == i;
        assert symbols[i] == s;
      }
    }
    assert forall i :: 0 <= i < |symbols| ==> r.contracts.currencies[symbols[i]] == i;
  }

  predicate SameSymbols(r: Registries) {
    && (r.pending.None? ==> r.contracts.currencies.Keys == r.interpreters.currencies.Keys)
    && (r.pending.Some? ==>
          && r.pending.value.0 !in r.interpreters.currencies
          && r.contracts.currencies.Keys == r.interpreters.currencies.Keys + {r.pending.value.0})
  }

  lemma InStepSameSymbols(r: Registries)
    requires InStep(r)
    ensures SameSymbols(r)
  {
    forall s
      ensures s in r.interpreters.currencies <==>
        s in r.contracts.currencies && !(r.pending.Some? && r.pending.value.0 == s)
    {
      SymbolsInStep(r, s);
    }
    SymbolsInStep(r, ETH);
  }

  lemma NewRegistriesInStep(assetETH: Address)
    ensures InStep(NewRegistries(assetETH))
  {
    NewContractsValid(assetETH);
    assert NewRegistries(assetETH).interpreters.symbols == [ETH];
  }

  /** In every run, whenever no registration is under way the registries hold the same symbols; and
      the second half of a registration always finds its symbol free. */
  lemma RegistriesAgree(assetETH: Address, steps: seq<RegStep>)
    ensures var r := Run(NewRegistries(assetETH), steps);
      ValidContracts(r.contracts) && ValidInterpreters(r.interpreters) && SameSymbols(r)
  {
    NewRegistriesInStep(assetETH);
    InStepRun(NewRegistries(assetETH), steps);
    InStepSameSymbols(Run(NewRegistries(assetETH), steps));
  }

  /** In the registries r a symbol has the asset, the token and the decimals of a registration. */
  predicate HasEntriesOf(r: Registries, s: string, token: Address, asset: Address, decimals: nat) {
    && AssetOf(r.contracts, s) == Some(asset) && TokenOf(r.contracts, s) == Some(token)
    && (s in r.interpreters.currencies ==> r.interpreters.currencies[s] == Currency(s, decimals))
    && (r.pending.Some? && r.pending.value.0 == s ==> r.pending.value.1 == decimals)
  }

  /** Step k of a run added the symbol, whose entries are still those of that step. */
  ghost predicate AddedBy(assetETH: Address, steps: seq<RegStep>, k: nat, s: string) {
    && k < |steps| && steps[k].ContractHalf? && steps[k].v.Some? && steps[k].v.value.0 == s
    && s !in Run(NewRegistries(assetETH), steps[..k]).contracts.currencies
    && HasEntriesOf(Run(NewRegistries(assetETH), steps), s, steps[k].token, steps[k].asset, steps[k].v.value.1)
  }

  predicate IsETH(r: Registries, assetETH: Address, s: string) {
    && s == "ETH" && AssetOf(r.contracts, s) == Some(assetETH) && TokenOf(r.contracts, s) == None
    && s in r.interpreters.currencies && r.interpreters.currencies[s] == Currency("ETH", 18)
    && (r.pending.Some? ==> r.pending.value.0 != s)
  }

  lemma EntriesKept(r: Registries, step: RegStep, s: string, token: Address, asset: Address, decimals: nat)
    requires InStep(r) && s in r.contracts.currencies && HasEntriesOf(r, s, token, asset, decimals)
    ensures HasEntriesOf(Next(r, step), s, token, asset, decimals)
  {
    SymbolsInStep(r, s);
    if step.ContractHalf? {
      RegisterContractEffect(r.contracts, step.token, step.asset, step.v);
    }
  }

  lemma EthKept(r: Registries, step: RegStep, assetETH: Address, s: string)
    requires InStep(r) && IsETH(r, assetETH, s)
    ensures IsETH(Next(r, step), assetETH, s)
  {
    SymbolsInStep(r, s);
    if step.ContractHalf? {
      RegisterContractEffect(r.contracts, step.token, step.asset, step.v);
    }
  }

  lemma EntriesAdded(r: Registries, step: RegStep, s: string)
    requires InStep(r) && s !in r.contracts.currencies && s in Next(r, step).contracts.currencies
    ensures step.ContractHalf? && step.v.Some? && step.v.value.0 == s
    ensures HasEntriesOf(Next(r, step), s, step.token, step.asset, step.v.value.1)
  {
    SymbolsInStep(r, s);
    if step.ContractHalf? {
      RegisterContractEffect(r.contracts, step.token, step.asset, step.v);
    }
  }

  /** In every run each symbol but ETH was added by one registration, whose token, asset and decimals it
      still has; ETH has the asset contract the node started with, no token, and eighteen decimals. */
  lemma {:induction false} EntriesAreTheRegistered(assetETH: Address, steps: seq<RegStep>, s: string)
    requires s in Run(NewRegistries(assetETH), steps).contracts.currencies
    ensures IsETH(Run(NewRegistries(assetETH), steps), assetETH, s) || exists k: nat :: AddedBy(assetETH, steps, k, s)
  {
    NewRegistriesInStep(assetETH);
    if steps != [] {
      var n := |steps| - 1;
      var front, r := steps[..n], Run(NewRegistries(assetETH), steps[..n]);
      InStepRun(NewRegistries(assetETH), front);
      if s !in r.contracts.currencies {
        EntriesAdded(r, steps[n], s);
        assert AddedBy(assetETH, steps, n, s);
      } else {
        EntriesAreTheRegistered(assetETH, front, s);
        if IsETH(r, assetETH, s) {
          EthKept(r, steps[n], assetETH, s);
        } else {
          var k: nat :| AddedBy(assetETH, front, k, s);
          EntriesKept(r, steps[n], s, front[k].token, front[k].asset, front[k].v.value.1);
          assert front[..k] == steps[..k];
          assert AddedBy(assetETH, steps, k, s);
        }
      }
    }
  }

  /** A session finds a symbol in the contract registry and, some steps of the node later, looks it up
      in the currency registry. It gets an interpreter unless the node is, at that moment, between
      the two halves of registering exactly that symbol. */
  lemma InterpreterFoundUnlessPending(assetETH: Address, before: seq<RegStep>, between: seq<RegStep>, symbol: string)
    requires symbol in Run(NewRegistries(assetETH), before).contracts.currencies
    ensures var r := Run(Run(NewRegistries(assetETH), before), between);
      symbol in r.interpreters.currencies <==> !(r.pending.Some? && r.pending.value.0 == symbol)
  {
    NewRegistriesInStep(assetETH);
    InStepRun(NewRegistries(assetETH), before);
    InStepRun(Run(NewRegistries(assetETH), before), between);
    SymbolsInStep(Run(Run(NewRegistries(assetETH), before), between), symbol);
  }

  /** The gap is real: after the first half of a registration the asset is found but the interpreter
      is not. */
  lemma GapBetweenTheHalves(assetETH: Address, token: Address, asset: Address, symbol: string, decimals: nat)
    requires asset != assetETH && symbol != ETH
    ensures var r := Run(NewRegistries(assetETH), [ContractHalf(token, asset, Some((symbol, decimals)))]);
      AssetOf(r.contracts, symbol) == Some(asset) && symbol !in r.interpreters.currencies
  {
    var steps := [ContractHalf(token, asset, Some((symbol, decimals)))];
    assert steps[..0] == [];
    assert Run(NewRegistries(assetETH), steps) == Next(NewRegistries(assetETH), steps[0]);
  }
}

/** The registry objects of blockchain/ethereum/registry.go, currency/registry.go and node/node.go. */
module RegistryObjects {
  import opened Wrappers
  import opened Currencies
  import opened RegistrySpec

  class ContractRegistry {
    var currencies: map<string, nat>
    var assets: seq<Address>
    var tokens: seq<Option<Address>>

    function View(): Contracts
      reads this
    {
      Contracts(currencies, assets, tokens)
    }

    ghost predicate Valid()
      reads this
    {
      ValidContracts(View())
    }

    constructor (assetETH: Address)
      ensures View() == NewContracts(assetETH) && Valid()
      ensures currencies == map["ETH" := 0] && assets == [assetETH] && tokens == [None]
    {
      currencies, assets, tokens := map[ETH := 0], [assetETH], [None];
      NewContractsValid(assetETH);
    }

    /** The map is searched in no particular order: the answer is the same for every order. */
    method IsAssetRegistered(asset: Address) returns (symbol: Option<string>)
      requires Valid()
      ensures symbol.None? <==> asset !in assets
      ensures symbol.Some? ==> HasSymbol(View(), asset, symbol.value)
      ensures symbol.Some? ==> symbol.value in currencies && assets[currencies[symbol.value]] == asset
      ensures forall s :: HasSymbol(View(), asset, s) ==> symbol == Some(s)
    {
      SymbolAndAssetInverse(View(), asset);
      for assetIdx := 0 to |assets|
        invariant asset !in assets[..assetIdx]
      {
        if assets[assetIdx] == asset {
          var rest := currencies.Keys;
          while rest != {}
            invariant rest <= currencies.Keys
            invariant forall s :: s in currencies.Keys - rest ==> currencies[s] != assetIdx
            decreases rest
          {
            var s :| s in rest;
            if currencies[s] == assetIdx {
              return Some(s);
            }
            rest := rest - {s};
          }
        }
      }
      return None;
    }

    /** A refusal names the symbol of the asset already registered, or the asset already registered for
        the symbol. */
    method RegisterAssetERC20(token: Address, asset: Address, validation: Validation)
      returns (r: Result<(string, nat), RegistryError>)
      requires Valid()
      modifies this
      ensures Valid()
      ensures View() == RegisterContract(old(View()), token, asset, validation)
      ensures r.Ok? <==> asset !in old(assets) && validation.Some? && validation.value.0 !in old(currencies)
      ensures r.Ok? ==>
        && validation == Some(r.value)
        && currencies == old(currencies)[r.value.0 := |old(assets)|]
        && assets == old(assets) + [asset] && tokens == old(tokens) + [Some(token)]
      ensures r.Err? ==> View() == old(View())
      ensures r.Err? && !r.error.InvalidContract? ==>
        && r.error.AssetERC20Registered?
        && ((r.error.asset == asset && HasSymbol(View(), asset, r.error.symbol))
            || (validation.Some? && r.error.symbol == validation.value.0
                && HasSymbol(View(), r.error.asset, r.error.symbol)))
      ensures r.Err? && r.error.InvalidContract? ==> validation.None? && asset !in assets
    {
      RegisterContractValid(View(), token, asset, validation);
      var registered := IsAssetRegistered(asset);
      if registered.Some? {
        return Err(AssetERC20Registered(asset, registered.value));
      }
      if validation.None? {
        return Err(InvalidContract);
      }
      var (symbol, maxDecimals) := validation.value;
      if symbol in currencies {
        return Err(AssetERC20Registered(assets[currencies[symbol]], symbol));
      }
      var nextIdx := |assets|;
      currencies := currencies[symbol := nextIdx];
      assets := assets + [asset];
      tokens := tokens + [Some(token)];
      return Ok((symbol, maxDecimals));
    }

    method Asset(symbol: string) returns (r: Option<Address>)
      requires Valid()
      ensures r == AssetOf(View(), symbol)
      ensures r == if symbol in currencies then Some(assets[currencies[symbol]]) else None
      ensures r.Some? ==> HasSymbol(View(), r.value, symbol)
    {
      if symbol !in currencies {
        return None;
      }
      return Some(assets[currencies[symbol]]);
    }

    /** Every registered symbol but ETH has a token. */
    method Token(symbol: string) returns (r: Option<Address>)
      requires Valid()
      ensures r == TokenOf(View(), symbol)
      ensures r.Some? <==> symbol in currencies && symbol != "ETH"
      ensures r.Some? ==> tokens[currencies[symbol]] == r
    {
      if symbol == ETH {
        return None;
      }
      if symbol !in currencies || tokens[currencies[symbol]].None? {
        return None;
      }
      return tokens[currencies[symbol]];
    }

    method Symbol(asset: Address) returns (symbol: Option<string>)
      requires Valid()
      ensures symbol.None? <==> asset !in assets
      ensures forall s :: HasSymbol(View(), asset, s) <==> symbol == Some(s)
    {
      symbol := IsAssetRegistered(asset);
    }

    /** The assets by symbol, again built in any order. */
    method Assets() returns (copy: map<string, Address>)
      requires Valid()
      ensures copy.Keys == currencies.Keys
      ensures forall s :: s in copy ==> AssetOf(View(), s) == Some(copy[s]) && copy[s] == assets[currencies[s]]
    {
      copy := map[];
      var rest := currencies.Keys;
      while rest != {}
        invariant rest <= currencies.Keys && copy.Keys == currencies.Keys - rest
        invariant forall s :: s in copy ==> copy[s] == assets[currencies[s]]
        decreases rest
      {
        var s :| s in rest;
        copy := copy[s := assets[currencies[s]]];
        rest := rest - {s};
      }
    }
  }

  class CurrencyRegistry {
    var symbols: seq<string>
    var currencies: map<string, Currency>

    function View(): Interpreters
      reads this
    {
      Interpreters(symbols, currencies)
    }

    ghost predicate Valid()
      reads this
    {
      ValidInterpreters(View())
    }

    constructor ()
      ensures View() == Interpreters([], map[]) && Valid()
    {
      symbols, currencies := [], map[];
    }

    method Register(symbol: string, maxDecimals: nat) returns (r: Result<Currency, RegistryError>)
      requires Valid()
      modifies this
      ensures Valid()
      ensures View() == RegisterInterpreter(old(View()), symbol, maxDecimals)
      ensures r.Ok? ==>
        currencies == old(currencies)[symbol := Currency(symbol, maxDecimals)] && symbols == old(symbols) + [symbol]
      ensures r.Err? ==> currencies == old(currencies) && symbols == old(symbols)
      ensures r == if symbol in old(currencies) then Err(CurrencyExists) else Ok(Currency(symbol, maxDecimals))
    {
      if symbol in currencies {
        return Err(CurrencyExists);
      }
      var c := Currency(symbol, maxDecimals);
      currencies := currencies[symbol := c];
      symbols := symbols + [symbol];
      return Ok(c);
    }
  }

  /** One entry of the node's configuration, or one request: the two addresses, where they can be
      parsed, and what the chain says about the asset contract. */
  datatype Request = Request(token: Option<Address>, asset: Option<Address>, validation: Validation)

  /** The entry's asset and token are registered under the symbol read from the chain, which has its
      interpreter. */
  predicate EntryRegistered(r: Registries, e: Request) {
    && e.token.Some? && e.asset.Some? && e.validation.Some?
    && AssetOf(r.contracts, e.validation.value.0) == e.asset
    && TokenOf(r.contracts, e.validation.value.0) == e.token
    && e.validation.value.0 in r.interpreters.currencies
    && r.interpreters.currencies[e.validation.value.0] == Currency(e.validation.value.0, e.validation.value.1)
  }

  /** A request can be met: its addresses can be parsed, its contract is valid, and neither the asset nor
      the symbol is registered. */
  predicate Registrable(c: Contracts, e: Request) {
    && e.token.Some? && e.asset.Some? && e.validation.Some?
    && e.asset.value !in c.assets && e.validation.value.0 !in c.currencies
  }

  /** Entry i can be met where the entries before it have been. */
  predicate RegistrableAt(c: Contracts, entries: seq<Request>, i: nat)
    requires i < |entries|
  {
    && Registrable(c, entries[i])
    && forall j :: 0 <= j < i ==>
         && entries[j].asset != entries[i].asset
         && (entries[j].validation.Some? ==> entries[j].validation.value.0 != entries[i].validation.value.0)
  }

  /** The first n entries can be met, one after the other. */
  predicate FirstRegistrable(c: Contracts, entries: seq<Request>, n: nat) {
    n <= |entries| && forall i :: 0 <= i < n ==> RegistrableAt(c, entries, i)
  }

  function AssetsOf(entries: seq<Request>): set<Address> {
    if entries == [] then {}
    else
      var e := entries[|entries| - 1];
      AssetsOf(entries[..|entries| - 1]) + if e.asset.Some? then {e.asset.value} else {}
  }

  function SymbolsOf(entries: seq<Request>): set<string> {
    if entries == [] then {}
    else
      var e := entries[|entries| - 1];
      SymbolsOf(entries[..|entries| - 1]) + if e.validation.Some? then {e.validation.value.0} else {}
  }

  function AssetSet(c: Contracts): (assets: set<Address>)
    ensures forall a :: a in assets <==> a in c.assets
  {
    set a | a in c.assets
  }

  /** The registry d holds what c does and, besides, the entries. */
  predicate Added(c: Contracts, d: Contracts, entries: seq<Request>) {
    && AssetSet(d) == AssetSet(c) + AssetsOf(entries)
    && d.currencies.Keys == c.currencies.Keys + SymbolsOf(entries)
  }

  predicate EntriesRegistered(r: Registries, entries: seq<Request>) {
    forall i :: 0 <= i < |entries| ==> EntryRegistered(r, entries[i])
  }

  /** What was registered is still there. */
  predicate Grown(r: Registries, q: Registries) {
    && (forall s :: s in r.contracts.currencies ==>
          && s in q.contracts.currencies
          && AssetOf(q.contracts, s) == AssetOf(r.contracts, s) && TokenOf(q.contracts, s) == TokenOf(r.contracts, s))
    && (forall s :: s in r.interpreters.currencies ==>
          s in q.interpreters.currencies && q.interpreters.currencies[s] == r.interpreters.currencies[s])
  }

  class Node {
    const contractRegistry: ContractRegistry
    const currencyRegistry: CurrencyRegistry

    function View(): Registries
      reads contractRegistry, currencyRegistry
    {
      Registries(contractRegistry.View(), currencyRegistry.View(), None)
    }

    constructor (assetETH: Address)
      ensures View() == NewRegistries(assetETH) && InStep(View())
      ensures contractRegistry.assets == [assetETH] && contractRegistry.currencies == map["ETH" := 0]
      ensures currencyRegistry.currencies == map["ETH" := Currency("ETH", 18)]
      ensures fresh(contractRegistry) && fresh(currencyRegistry)
    {
      var contracts := new ContractRegistry(assetETH);
      var interpreters := new CurrencyRegistry();
      var eth := interpreters.Register(ETH, ETH_MAX_DECIMALS);
      contractRegistry, currencyRegistry := contracts, interpreters;
      NewRegistriesInStep(assetETH);
    }

    /** Registering a currency runs both halves, or leaves both registries alone. The error of the
        second half cannot occur. */
    method RegisterCurrency(req: Request) returns (r: Result<string, RegistryError>)
      requires InStep(View())
      modifies contractRegistry, currencyRegistry
      ensures InStep(View())
      ensures req.token.Some? && req.asset.Some? ==>
        View() == Run(old(View()), [ContractHalf(req.token.value, req.asset.value, req.validation), InterpreterHalf])
      ensures Grown(old(View()), View())
      ensures r.Err? ==> View() == old(View())
      ensures r.Ok? <==> Registrable(old(contractRegistry.View()), req)
      ensures r.Ok? ==>
        && contractRegistry.assets == old(contractRegistry.assets) + [req.asset.value]
        && contractRegistry.currencies.Keys == old(contractRegistry.currencies).Keys + {r.value}
      ensures r.Ok? ==>
        && EntryRegistered(View(), req)
        && req.validation.Some? && req.validation.value.0 == r.value
        && r.value !in old(currencyRegistry.currencies)
        && currencyRegistry.currencies[r.value] == Currency(r.value, req.validation.value.1)
      ensures r != Err(CurrencyExists)
      ensures r == Err(InvalidAddress) <==> req.token.None? || req.asset.None?
    {
      if req.asset.None? {
        return Err(InvalidAddress);
      }
      if req.token.None? {
        return Err(InvalidAddress);
      }
      BothHalves(View(), req.token.value, req.asset.value, req.validation);
      var registered := contractRegistry.RegisterAssetERC20(req.token.value, req.asset.value, req.validation);
      if registered.Err? {
        return Err(registered.error);
      }
      var (symbol, maxDecimals) := registered.value;
      var c := currencyRegistry.Register(symbol, maxDecimals);
      if c.Err? {
        return Err(CurrencyExists);
      }
      return Ok(symbol);
    }

    /** The configured assets, in whatever order the map gives them: the registries end in step whether
        or not an entry is refused, and without a refusal every entry's asset is registered. */
    method RegisterAssetERC20s(entries: seq<Request>) returns (err: Option<RegistryError>)
      requires InStep(View())
      modifies contractRegistry, currencyRegistry
      ensures InStep(View())
      ensures err.None? ==> EntriesRegistered(View(), entries)
      ensures err.None? <==> FirstRegistrable(old(contractRegistry.View()), entries, |entries|)
      ensures err != Some(CurrencyExists)
    {
      ghost var c := contractRegistry.View();
      for i := 0 to |entries|
        invariant InStep(View())
        invariant EntriesRegistered(View(), entries[..i])
        invariant Added(c, contractRegistry.View(), entries[..i])
        invariant FirstRegistrable(c, entries, i)
      {
        ghost var before := View();
        assert before.contracts == contractRegistry.View();
        RegistrableNow(c, before.contracts, entries, i);
        var r := RegisterCurrency(entries[i]);
        if r.Err? {
          return Some(r.error);
        }
        assert Registrable(before.contracts, entries[i]);
        NextRegistrable(c, entries, i);
        NextEntryRegistered(before, View(), entries, i);
        NextAdded(c, before.contracts, contractRegistry.View(), entries, i);
      }
      assert entries[..|entries|] == entries;
      return None;
    }
  }

  lemma TwoSteps(r: Registries, a: RegStep, b: RegStep)
    ensures Run(r, [a, b]) == Next(Next(r, a), b)
  {
    assert [a, b][..1] == [a] && [a][..0] == [];
    assert Run(r, [a]) == Next(r, a);
  }

  /** What the two halves of a registration do together. */
  lemma BothHalves(r: Registries, token: Address, asset: Address, v: Validation)
    requires InStep(r) && r.pending.None?
    ensures var q := Run(r, [ContractHalf(token, asset, v), InterpreterHalf]);
      && InStep(q) && Grown(r, q)
      && if asset !in r.contracts.assets && v.Some? && v.value.0 !in r.contracts.currencies
         then && q == Registries(RegisterContract(r.contracts, token, asset, v),
                                 RegisterInterpreter(r.interpreters, v.value.0, v.value.1), None)
              && v.value.0 !in r.interpreters.currencies
              && EntryRegistered(q, Request(Some(token), Some(asset), v))
         else q == r
  {
    var half := ContractHalf(token, asset, v);
    var mid := Next(r, half);
    TwoSteps(r, half, InterpreterHalf);
    InStepNext(r, half);
    InStepNext(mid, InterpreterHalf);
    HalfGrows(r, half);
    HalfGrows(mid, InterpreterHalf);
    RegisterContractEffect(r.contracts, token, asset, v);
    if v.Some? { SymbolsInStep(r, v.value.0); }
  }

  /** A registration keeps every earlier asset, token and interpreter. */
  lemma HalfGrows(r: Registries, half: RegStep)
    requires InStep(r)
    ensures Grown(r, Next(r, half))
  {
    if half.ContractHalf? {
      RegisterContractValid(r.contracts, half.token, half.asset, half.v);
    }
  }

  lemma NextEntryRegistered(r: Registries, q: Registries, entries: seq<Request>, i: nat)
    requires i < |entries|
    requires Grown(r, q) && EntriesRegistered(r, entries[..i]) && EntryRegistered(q, entries[i])
    ensures EntriesRegistered(q, entries[..i + 1])
  {
  }

  lemma {:induction false} AmongEntries(entries: seq<Request>, a: Address, s: string)
    ensures a in AssetsOf(entries) <==> exists j :: 0 <= j < |entries| && entries[j].asset == Some(a)
    ensures s in SymbolsOf(entries) <==>
      exists j :: 0 <= j < |entries| && entries[j].validation.Some? && entries[j].validation.value.0 == s
  {
    if entries != [] {
      AmongEntries(entries[..|entries| - 1], a, s);
    }
  }

  /** An entry can be met now exactly if it can where the entries before it have been. */
  lemma RegistrableNow(c: Contracts, d: Contracts, entries: seq<Request>, i: nat)
    requires i < |entries| && Added(c, d, entries[..i])
    ensures Registrable(d, entries[i]) <==> RegistrableAt(c, entries, i)
  {
    var e, before := entries[i], entries[..i];
    assert forall j :: 0 <= j < i ==> before[j] == entries[j];
    if e.token.Some? && e.asset.Some? && e.validation.Some? {
      var a, s := e.asset.value, e.validation.value.0;
      AmongEntries(before, a, s);
      assert a in d.assets <==> a in c.assets || a in AssetsOf(before);
      assert s in d.currencies <==> s in c.currencies || s in SymbolsOf(before);
      if Registrable(d, e) {
        forall j | 0 <= j < i
          ensures entries[j].asset != e.asset
          ensures entries[j].validation.Some? ==> entries[j].validation.value.0 != s
        {
          assert before[j] == entries[j];
        }
      }
    }
  }

  lemma NextRegistrable(c: Contracts, entries: seq<Request>, i: nat)
    requires i < |entries| && FirstRegistrable(c, entries, i) && RegistrableAt(c, entries, i)
    ensures FirstRegistrable(c, entries, i + 1)
  {
  }

  lemma NextAdded(c: Contracts, d: Contracts, d': Contracts, entries: seq<Request>, i: nat)
    requires i < |entries| && Added(c, d, entries[..i])
    requires entries[i].asset.Some? && entries[i].validation.Some?
    requires d'.assets == d.assets + [entries[i].asset.value]
    requires d'.currencies.Keys == d.currencies.Keys + {entries[i].validation.value.0}
    ensures Added(c, d', entries[..i + 1])
  {
    assert entries[..i + 1][..i] == entries[..i];
    assert AssetSet(d') == AssetSet(d) + {entries[i].asset.value};
  }
}

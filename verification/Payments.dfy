/** Batches of payments on a channel (app/payment/channel.go): how a batch is turned into balance
    changes, and what the changes add up to. */
module Payments {
  import opened Wrappers
  import opened ChannelSpec
  import opened ChannelObject
  import opened Currencies

  /** One captured update: move an amount of one currency from the payer to the payee. */
  datatype Move = Move(payer: nat, payee: nat, cur: nat, amount: int)

  datatype Payment = Payment(currency: string, payee: string, amount: Option<Decimal>)

  datatype PayError = UnknownCurrency(symbol: string) | InvalidAmount | InvalidPayee(payee: string)
                    | UpdateFailed(error: ApiError)

  // ----- batches on values

  predicate Shape(b: Balances, rows: nat, cols: nat) {
    |b| == rows && forall c :: 0 <= c < rows ==> |b[c]| == cols
  }

  /** The other index of a pair, as flipping the lowest bit gives it. */
  function FlipLowestBit(i: nat): nat {
    if i % 2 == 0 then i + 1 else i - 1
  }

  /** A move between two neighbours, on a channel with these numbers of currencies and participants. */
  predicate Paired(m: Move, currencies: nat, parties: nat) {
    m.cur < currencies && m.payee < parties && m.payer < parties && m.payer == FlipLowestBit(m.payee)
  }

  predicate AllPaired(ms: seq<Move>, currencies: nat, parties: nat) {
    forall m :: m in ms ==> Paired(m, currencies, parties)
  }

  /** Adding an amount to one entry; a move that points outside the balances changes nothing. */
  function AddAt(b: Balances, c: nat, p: nat, amount: int): Balances {
    if c < |b| && p < |b[c]| then b[c := b[c][p := b[c][p] + amount]] else b
  }

  predicate SameShape(b: Balances, r: Balances) {
    |r| == |b| && forall c :: 0 <= c < |b| ==> |r[c]| == |b[c]|
  }

  /** What a move does to each entry. */
  lemma ApplyMoveEntries(b: Balances, m: Move)
    ensures SameShape(b, ApplyMove(b, m))
    ensures forall c, p :: 0 <= c < |b| && 0 <= p < |b[c]| ==>
      ApplyMove(b, m)[c][p] == b[c][p] + (if c == m.cur && p == m.payee then m.amount else 0)
                                       - (if c == m.cur && p == m.payer then m.amount else 0)
  {
  }

  function ApplyMove(b: Balances, m: Move): Balances {
    AddAt(AddAt(b, m.cur, m.payer, -m.amount), m.cur, m.payee, m.amount)
  }

  /** The balances after the moves, made one after the other. */
  function ApplyMoves(b: Balances, ms: seq<Move>): Balances {
    if ms == [] then b else ApplyMove(ApplyMoves(b, ms[..|ms| - 1]), ms[|ms| - 1])
  }

  /** What the moves pay out to, and take from, a participant in a currency. */
  function Received(ms: seq<Move>, c: nat, p: nat): int {
    if ms == [] then 0
    else var m := ms[|ms| - 1];
      Received(ms[..|ms| - 1], c, p) + if m.cur == c && m.payee == p then m.amount else 0
  }

  function Sent(ms: seq<Move>, c: nat, p: nat): int {
    if ms == [] then 0
    else var m := ms[|ms| - 1];
      Sent(ms[..|ms| - 1], c, p) + if m.cur == c && m.payer == p then m.amount else 0
  }

  /** Netting: running the moves one by one adds to each balance what the batch pays to that
      participant in that currency, less what it takes. */
  lemma {:induction false} Netting(b: Balances, ms: seq<Move>)
    ensures var r := ApplyMoves(b, ms);
      && SameShape(b, r)
      && (forall c, p :: 0 <= c < |b| && 0 <= p < |b[c]| ==>
            r[c][p] == b[c][p] + Received(ms, c, p) - Sent(ms, c, p))
  {
    if ms != [] {
      Netting(b, ms[..|ms| - 1]);
      ApplyMoveEntries(ApplyMoves(b, ms[..|ms| - 1]), ms[|ms| - 1]);
    }
  }

  lemma {:induction false} FlowsConcat(a: seq<Move>, b: seq<Move>, c: nat, p: nat)
    ensures Received(a + b, c, p) == Received(a, c, p) + Received(b, c, p)
    ensures Sent(a + b, c, p) == Sent(a, c, p) + Sent(b, c, p)
  {
    if b == [] {
      assert a + b == a;
    } else {
      FlowsConcat(a, b[..|b| - 1], c, p);
      assert (a + b)[..|a + b| - 1] == a + b[..|b| - 1];
    }
  }

  lemma ApplyMovesSnoc(bals: Balances, ms: seq<Move>, m: Move)
    ensures ApplyMoves(bals, ms + [m]) == ApplyMove(ApplyMoves(bals, ms), m)
  {
    assert (ms + [m])[..|ms|] == ms;
  }

  lemma {:induction false} ApplyMovesConcat(bals: Balances, a: seq<Move>, b: seq<Move>)
    ensures ApplyMoves(bals, a + b) == ApplyMoves(ApplyMoves(bals, a), b)
  {
    if b == [] {
      assert a + b == a;
    } else {
      var front, m := b[..|b| - 1], b[|b| - 1];
      assert b == front + [m] && a + b == (a + front) + [m];
      ApplyMovesConcat(bals, a, front);
      ApplyMovesSnoc(bals, a + front, m);
    }
  }

  /** Where in a batch a move stands makes no difference to the flows. */
  lemma FlowsWithout(front: seq<Move>, m: Move, back: seq<Move>, c: nat, p: nat)
    ensures Received(front + [m] + back, c, p) == Received(front + back, c, p) + Received([m], c, p)
    ensures Sent(front + [m] + back, c, p) == Sent(front + back, c, p) + Sent([m], c, p)
  {
    FlowsConcat(front + [m], back, c, p);
    FlowsConcat(front, [m], c, p);
    FlowsConcat(front, back, c, p);
  }

  /** A move of a batch, singled out. */
  lemma SplitAt(b: seq<Move>, m: Move) returns (front: seq<Move>, back: seq<Move>)
    requires m in multiset(b)
    ensures b == front + [m] + back
    ensures multiset(front + back) == multiset(b) - multiset{m}
  {
    var k :| 0 <= k < |b| && b[k] == m;
    front, back := b[..k], b[k + 1..];
    assert b == front + [m] + back;
    assert multiset(b) == multiset(front + back) + multiset{m};
  }

  lemma {:induction false} FlowsOfPermutation(a: seq<Move>, b: seq<Move>, c: nat, p: nat)
    requires multiset(a) == multiset(b)
    ensures Received(a, c, p) == Received(b, c, p) && Sent(a, c, p) == Sent(b, c, p)
  {
    if a == [] {
      assert b == [] by { assert |multiset(b)| == |b|; }
    } else {
      var m, a' := a[|a| - 1], a[..|a| - 1];
      assert a == a' + [m] + [];
      assert m in multiset(b) by { assert m in multiset(a); }
      var front, back := SplitAt(b, m);
      assert multiset(a') == multiset(front + back) by { assert multiset(a) == multiset(a') + multiset{m}; }
      FlowsOfPermutation(a', front + back, c, p);
      FlowsWithout(front, m, back, c, p);
      FlowsWithout(a', m, [], c, p);
      assert a' + [] == a';
    }
  }

  /** The order of the payments in a batch does not matter. */
  lemma BatchOrderIrrelevant(bals: Balances, a: seq<Move>, b: seq<Move>)
    requires multiset(a) == multiset(b)
    ensures ApplyMoves(bals, a) == ApplyMoves(bals, b)
  {
    Netting(bals, a);
    Netting(bals, b);
    var r, s := ApplyMoves(bals, a), ApplyMoves(bals, b);
    forall c | 0 <= c < |bals| ensures r[c] == s[c] {
      forall p | 0 <= p < |bals[c]| ensures r[c][p] == s[c][p] {
        FlowsOfPermutation(a, b, c, p);
      }
    }
  }

  // ----- conservation

  function Sum(row: seq<int>): int {
    if row == [] then 0 else Sum(row[..|row| - 1]) + row[|row| - 1]
  }

  lemma {:induction false} SumOfUpdate(row: seq<int>, i: nat, x: int)
    requires i < |row|
    ensures Sum(row[i := x]) == Sum(row) - row[i] + x
  {
    var n := |row| - 1;
    if i < n {
      SumOfUpdate(row[..n], i, x);
      assert row[i := x][..n] == row[..n][i := x];
    } else {
      assert row[i := x][..n] == row[..n];
    }
  }

  lemma MoveConserves(b: Balances, m: Move, parties: nat, c: nat)
    requires Shape(b, |b|, parties) && Paired(m, |b|, parties) && c < |b|
    ensures Sum(ApplyMove(b, m)[c]) == Sum(b[c])
  {
    if c == m.cur {
      var taken := b[c][m.payer := b[c][m.payer] - m.amount];
      SumOfUpdate(b[c], m.payer, b[c][m.payer] - m.amount);
      SumOfUpdate(taken, m.payee, taken[m.payee] + m.amount);
    }
  }

  /** A batch leaves the total of every currency as it was, whatever the amounts. */
  lemma {:induction false} BatchConserves(b: Balances, ms: seq<Move>, parties: nat, c: nat)
    requires Shape(b, |b|, parties) && AllPaired(ms, |b|, parties) && c < |b|
    ensures Shape(ApplyMoves(b, ms), |b|, parties) && Sum(ApplyMoves(b, ms)[c]) == Sum(b[c])
  {
    if ms != [] {
      var front, m := ms[..|ms| - 1], ms[|ms| - 1];
      BatchConserves(b, front, parties, c);
      Netting(b, ms);
      assert Paired(m, |b|, parties);
      MoveConserves(ApplyMoves(b, front), m, parties, c);
    }
  }

  // ----- the closures, run in place

  /** The rows of a table of balances. */
  function Rows(a: array2<int>): (b: Balances)
    reads a
    ensures Shape(b, a.Length0, a.Length1)
    ensures forall i, j :: 0 <= i < a.Length0 && 0 <= j < a.Length1 ==> b[i][j] == a[i, j]
  {
    seq(a.Length0, i requires 0 <= i < a.Length0 reads a =>
      seq(a.Length1, j requires 0 <= j < a.Length1 reads a => a[i, j]))
  }

  /** One captured update, run on the balances: take from the payer, then give to the payee. */
  method RunUpdate(bal: array2<int>, m: Move)
    requires m.cur < bal.Length0 && m.payer < bal.Length1 && m.payee < bal.Length1
    modifies bal
    ensures Rows(bal) == ApplyMove(old(Rows(bal)), m)
  {
    bal[m.cur, m.payer] := bal[m.cur, m.payer] - m.amount;
    bal[m.cur, m.payee] := bal[m.cur, m.payee] + m.amount;
    assert forall i :: 0 <= i < bal.Length0 ==> Rows(bal)[i] == ApplyMove(old(Rows(bal)), m)[i];
  }

  method RunUpdates(bal: array2<int>, updates: seq<Move>)
    requires AllPaired(updates, bal.Length0, bal.Length1)
    modifies bal
    ensures Rows(bal) == ApplyMoves(old(Rows(bal)), updates)
  {
    for i := 0 to |updates|
      invariant Rows(bal) == ApplyMoves(old(Rows(bal)), updates[..i])
    {
      assert Paired(updates[i], bal.Length0, bal.Length1);
      RunUpdate(bal, updates[i]);
      assert updates[..i + 1][..i] == updates[..i];
    }
    assert updates[..|updates|] == updates;
  }

  /** Running the updates on a copy of the balances, as the library does before it asks the peer: the
      agreed balances themselves stay as they are. The result is that of `BatchUpdater`, which stands
      for the loop over the closures where the library takes a function. */
  method UpdatedCopy(bals: Balances, parties: nat, updates: seq<Move>) returns (next: Balances)
    requires Shape(bals, |bals|, parties) && AllPaired(updates, |bals|, parties)
    ensures next == ApplyMoves(bals, updates)
    ensures forall p: PState :: p.bals == bals ==> BatchUpdater(updates)(p) == Some(p.(bals := next))
  {
    var clone := new int[|bals|, parties]((i, j) requires 0 <= i < |bals| && 0 <= j < parties => bals[i][j]);
    assert Rows(clone) == bals by {
      assert forall i :: 0 <= i < |bals| ==> Rows(clone)[i] == bals[i];
    }
    RunUpdates(clone, updates);
    next := Rows(clone);
  }

  /** The update of a batch: all its moves, made on the balances of the state. */
  function BatchUpdater(moves: seq<Move>): Updater {
    (p: PState) => Some(p.(bals := ApplyMoves(p.bals, moves)))
  }

  // ----- building a batch

  /** The index of each symbol among a channel's currencies, as a new channel records it: the last one,
      if a symbol is listed twice. */
  method SymbolIndices(currencies: seq<Currency>) returns (symbols: map<string, nat>)
    ensures forall i :: 0 <= i < |currencies| ==> currencies[i].symbol in symbols
    ensures forall s :: s in symbols ==>
      && symbols[s] < |currencies| && currencies[symbols[s]].symbol == s
      && forall j :: symbols[s] < j < |currencies| ==> currencies[j].symbol != s
  {
    symbols := map[];
    for i := 0 to |currencies|
      invariant forall j :: 0 <= j < i ==> currencies[j].symbol in symbols
      invariant forall s :: s in symbols ==>
        && symbols[s] < i && currencies[symbols[s]].symbol == s
        && forall j :: symbols[s] < j < i ==> currencies[j].symbol != s
    {
      symbols := symbols[currencies[i].symbol := i];
    }
  }

  /** The first participant of a name, or the number of participants if there is none. */
  function FirstIdx(parts: seq<string>, name: string): (i: nat)
    ensures i <= |parts| && name !in parts[..i]
    ensures i < |parts| ==> parts[i] == name
  {
    if parts == [] || parts[0] == name then 0 else 1 + FirstIdx(parts[1..], name)
  }

  lemma {:induction false} FirstIs(parts: seq<string>, name: string, i: nat)
    requires i < |parts| && parts[i] == name && name !in parts[..i]
    ensures FirstIdx(parts, name) == i
  {
    if i > 0 {
      assert parts[0] in parts[..i] && parts[1..][..i - 1] == parts[..i][1..];
      FirstIs(parts[1..], name, i - 1);
    }
  }

  /** The payee is the first participant of that name, the payer its neighbour. */
  method GetPayerPayeeIdx(parts: seq<string>, payee: string) returns (r: Option<(nat, nat)>)
    ensures r.None? <==> payee !in parts
    ensures r.Some? ==>
      && r.value.1 < |parts| && parts[r.value.1] == payee && payee !in parts[..r.value.1]
      && r.value.0 == FlipLowestBit(r.value.1)
      && (|parts| == 2 ==> r.value.0 == 1 - r.value.1)
  {
    for i := 0 to |parts|
      invariant payee !in parts[..i]
    {
      if parts[i] == payee {
        return Some((FlipLowestBit(i), i));
      }
    }
    return None;
  }

  /** A named participant has a neighbour, as everyone has on a channel of two: the update looks at the
      neighbour's balance. */
  predicate HasNeighbour(parts: seq<string>, name: string) {
    FirstIdx(parts, name) < |parts| ==> FlipLowestBit(FirstIdx(parts, name)) < |parts|
  }

  /** A payment can be made: its currency is one of the channel's, its amount can be parsed, and its payee
      takes part. */
  predicate Usable(symbols: map<string, nat>, currencies: seq<Currency>, parts: seq<string>, p: Payment)
    requires forall s :: s in symbols ==> symbols[s] < |currencies|
  {
    && p.currency in symbols
    && Parse(p.amount, currencies[symbols[p.currency]].decimals).Ok?
    && p.payee in parts
  }

  /** The reason why a payment cannot be made: the currency comes first, then the amount, then the payee. */
  function Reason(symbols: map<string, nat>, currencies: seq<Currency>, p: Payment): PayError
    requires forall s :: s in symbols ==> symbols[s] < |currencies|
  {
    if p.currency !in symbols then UnknownCurrency(p.currency)
    else if Parse(p.amount, currencies[symbols[p.currency]].decimals).Err? then InvalidAmount
    else InvalidPayee(p.payee)
  }

  /** The move of a payment: to the first participant with the payee's name, from its neighbour, of the
      amount in the base units of the currency. */
  predicate IsMoveOf(symbols: map<string, nat>, currencies: seq<Currency>, parts: seq<string>, p: Payment, m: Move)
    requires forall s :: s in symbols ==> symbols[s] < |currencies|
  {
    && m.payee < |parts| && parts[m.payee] == p.payee && p.payee !in parts[..m.payee]
    && m.payer == (if m.payee % 2 == 0 then m.payee + 1 else m.payee - 1)
    && p.currency in symbols && m.cur == symbols[p.currency]
    && Parse(p.amount, currencies[m.cur].decimals) == Ok(m.amount)
  }

  /** On a channel of two, one payment adds its amount to the payee's balance in its currency, takes it
      from the other one's, and leaves everything else alone. */
  lemma OnePayment(symbols: map<string, nat>, currencies: seq<Currency>, parts: seq<string>, p: Payment,
                   m: Move, bals: Balances)
    requires forall s :: s in symbols ==> symbols[s] < |currencies|
    requires |parts| == 2 && Shape(bals, |currencies|, 2) && IsMoveOf(symbols, currencies, parts, p, m)
    ensures var r := ApplyMoves(bals, [m]);
      var c, payee := symbols[p.currency], if parts[0] == p.payee then 0 else 1;
      && SameShape(bals, r)
      && r[c][payee] == bals[c][payee] + m.amount
      && r[c][1 - payee] == bals[c][1 - payee] - m.amount
      && forall i :: 0 <= i < |currencies| && i != c ==> r[i] == bals[i]
  {
    assert [m][..0] == [];
    ApplyMoveEntries(bals, m);
  }

  /** A batch is sent only if every payment in it can be made; then the agreed balances either become
      those with all payments made, one version on, or stay as they are. If some payment cannot be
      made, the first such one is reported and the channel is left alone. */
  method SendPayChUpdate(ch: Channel, symbols: map<string, nat>, currencies: seq<Currency>,
                         parts: seq<string>, payments: seq<Payment>, ok: bool)
    returns (err: Option<PayError>, ghost moves: seq<Move>)
    requires forall s :: s in symbols ==> symbols[s] < |currencies|
    requires (forall p :: p in payments ==> Usable(symbols, currencies, parts, p)) ==>
      forall p :: p in payments ==> HasNeighbour(parts, p.payee)
    requires Shape(ch.pch.bals, |currencies|, |parts|)
    modifies ch`pch
    ensures (exists i :: 0 <= i < |payments| && !Usable(symbols, currencies, parts, payments[i])) <==>
            (err.Some? && !err.value.UpdateFailed?)
    ensures err.Some? && !err.value.UpdateFailed? ==>
      && ch.World() == old(ch.World())
      && exists i :: 0 <= i < |payments|
           && !Usable(symbols, currencies, parts, payments[i])
           && err.value == Reason(symbols, currencies, payments[i])
           && forall j :: 0 <= j < i ==> Usable(symbols, currencies, parts, payments[j])
    ensures err.None? || err.value.UpdateFailed? ==>
      && |moves| == |payments| && AllPaired(moves, |currencies|, |parts|)
      && (forall i :: 0 <= i < |payments| ==> IsMoveOf(symbols, currencies, parts, payments[i], moves[i]))
      && ch.World() == SendUpdateStep(old(ch.World()), BatchUpdater(moves), ok)
    ensures err.None? ==> ch.pch == PState(old(ch.pch).version + 1, false, ApplyMoves(old(ch.pch).bals, moves))
    ensures err.Some? ==> ch.pch == old(ch.pch)
  {
    var updates: seq<Move> := [];
    moves := [];
    for i := 0 to |payments|
      invariant |updates| == i
      invariant forall j :: 0 <= j < i ==>
        && Usable(symbols, currencies, parts, payments[j])
        && IsMoveOf(symbols, currencies, parts, payments[j], updates[j])
      invariant ch.World() == old(ch.World())
    {
      var p := payments[i];
      if p.currency !in symbols {
        return Some(UnknownCurrency(p.currency)), [];
      }
      var idx := symbols[p.currency];
      var parsed := Parse(p.amount, currencies[idx].decimals);
      if parsed.Err? {
        return Some(InvalidAmount), [];
      }
      var pair := GetPayerPayeeIdx(parts, p.payee);
      if pair.None? {
        return Some(InvalidPayee(p.payee)), [];
      }
      updates := updates + [Move(pair.value.0, pair.value.1, idx, parsed.value)];
    }
    moves := updates;
    forall m | m in updates ensures Paired(m, |currencies|, |parts|) {
      var i :| 0 <= i < |updates| && updates[i] == m;
      assert IsMoveOf(symbols, currencies, parts, payments[i], m) && payments[i] in payments;
      FirstIs(parts, payments[i].payee, m.payee);
    }
    var info, apiErr := ch.SendChUpdate(BatchUpdater(updates), ok);
    return if apiErr.None? then None else Some(UpdateFailed(apiErr.value)), moves;
  }
}

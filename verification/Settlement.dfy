/** The batch of payments that settles a deployed reservation. */
module Settlement {
  import opened GoInt
  import opened Payout
  import opened Ledger

  // What one farmer is owed for a reservation.
  datatype Detail = Detail(farmer: int, amount: int64)

  datatype Payment = Payment(to: Account, amount: nat)

  // Burning is paying the issuer.
  function Issuer(asset: Asset): Account {
    match asset
    case Asset(TFT, Mainnet) => "GBOVQKJYHXRR3DX6NOX2RRYFRCUMSADGDESTDNBDS6CDVLGVESRTAC47"
    case Asset(TFT, Testnet) => "GA47YZA3PKFUZMPLQ3B5F2E3CJIB57TGGU7SPCQT2WAEYKN766PWIMB3"
    case Asset(TFTA, Mainnet) => "GBUT4GP5GJ6B3XW5PXENHQA7TXJI5GOPW3NF4W3ZIW6OOO4ISY6WNLN2"
    case Asset(TFTA, Testnet) => "GB55A4RR4G2MIORJTQA4L6FENZU7K4W7ATGY6YOT2CW47M5SZYGYKSCT"
    case Asset(FreeTFT, Mainnet) => "GCBGS5TFE2BPPUVY55ZPEMWWGR6CLQ7T6P46SOFGHXEBJ34MSP6HVEUT"
    case Asset(FreeTFT, Testnet) => "GBLDUINEFYTF7XEE7YNWA3JQS4K2VD37YU7I2YAE7R5AHZDKQXSS2J6R"
  }

  // ---------- Sums over the details ----------

  function Required(infos: seq<Detail>): int {
    if infos == [] then 0 else Required(infos[..|infos| - 1]) + infos[|infos| - 1].amount
  }

  // Costs are not negative and their scaled sum fits an int64.
  ghost predicate Admissible(infos: seq<Detail>) {
    && (forall i | 0 <= i < |infos| :: infos[i].amount >= 0)
    && 10 * Required(infos) <= MAX_INT64
  }

  function ShareOf(detail: Detail, d: Distribution): Shares {
    if detail.amount >= 0 then Split(detail.amount, d) else Shares(0, 0, 0)
  }

  function Burned(infos: seq<Detail>, d: Distribution): int {
    if infos == [] then 0 else Burned(infos[..|infos| - 1], d) + ShareOf(infos[|infos| - 1], d).burned
  }

  function Foundation(infos: seq<Detail>, d: Distribution): int {
    if infos == [] then 0 else Foundation(infos[..|infos| - 1], d) + ShareOf(infos[|infos| - 1], d).foundation
  }

  // Shares of farmers whose farm or wallet address could not be found.
  function Skipped(infos: seq<Detail>, d: Distribution, wallets: map<int, Account>): int {
    if infos == [] then 0
    else
      var last := infos[|infos| - 1];
      Skipped(infos[..|infos| - 1], d, wallets) + if last.farmer in wallets then 0 else ShareOf(last, d).farmer
  }

  // Seventh digits, which are never split.
  function Dust(infos: seq<Detail>): int {
    if infos == [] then 0 else Dust(infos[..|infos| - 1]) + infos[|infos| - 1].amount % 10
  }

  function Total(payments: seq<Payment>): nat {
    if payments == [] then 0 else Total(payments[..|payments| - 1]) + payments[|payments| - 1].amount
  }

  // One payment for every farmer with a share and a wallet.
  function FarmerPayments(infos: seq<Detail>, d: Distribution, wallets: map<int, Account>): seq<Payment> {
    if infos == [] then []
    else
      var last := infos[|infos| - 1];
      var share := ShareOf(last, d).farmer;
      FarmerPayments(infos[..|infos| - 1], d, wallets) +
      if share > 0 && last.farmer in wallets then [Payment(wallets[last.farmer], share)] else []
  }

  function Pooled(to: Account, amount: int): seq<Payment> {
    if amount > 0 then [Payment(to, amount)] else []
  }

  // The whole batch: farmers, then the burn, then the foundation.
  function Batch(infos: seq<Detail>, asset: Asset, wallets: map<int, Account>, foundation: Account): seq<Payment> {
    var d := DistributionOf(asset);
    FarmerPayments(infos, d, wallets) + Pooled(Issuer(asset), Burned(infos, d)) +
    Pooled(foundation, Foundation(infos, d))
  }

  // ---------- What the batch adds up to ----------

  lemma TotalConcat(p: seq<Payment>, q: seq<Payment>)
    ensures Total(p + q) == Total(p) + Total(q)
  {
    if q == [] {
      assert p + q == p;
    } else {
      TotalConcat(p, q[..|q| - 1]);
      assert (p + q)[..|p + q| - 1] == p + q[..|q| - 1];
    }
  }

  lemma ShareConserves(detail: Detail, d: Distribution)
    requires d.Sum() == 100 && detail.amount >= 0
    ensures var s := ShareOf(detail, d);
            0 <= s.farmer && 0 <= s.burned && 0 <= s.foundation && s.Sum() == detail.amount - detail.amount % 10
  {
    SplitIsFair(detail.amount, d);
  }

  lemma {:induction false} SharesAddUp(infos: seq<Detail>, d: Distribution, wallets: map<int, Account>)
    requires d.Sum() == 100 && forall i | 0 <= i < |infos| :: infos[i].amount >= 0
    ensures 0 <= Burned(infos, d) && 0 <= Foundation(infos, d) && 0 <= Skipped(infos, d, wallets) && 0 <= Dust(infos)
    ensures Total(FarmerPayments(infos, d, wallets)) + Burned(infos, d) + Foundation(infos, d)
          + Skipped(infos, d, wallets) + Dust(infos) == Required(infos)
  {
    if infos == [] {
    } else {
      var init, last := infos[..|infos| - 1], infos[|infos| - 1];
      SharesAddUp(init, d, wallets);
      ShareConserves(last, d);
      var share := ShareOf(last, d).farmer;
      TotalConcat(FarmerPayments(init, d, wallets),
                  if share > 0 && last.farmer in wallets then [Payment(wallets[last.farmer], share)] else []);
      if share > 0 && last.farmer in wallets {
        assert Total([Payment(wallets[last.farmer], share)]) == share;
      }
    }
  }

  // Nothing of the price appears from nowhere: what is paid out, what skipped farmers are owed
  // and the unsplit seventh digits make up exactly what the client had to pay.
  lemma BatchAddsUp(infos: seq<Detail>, asset: Asset, wallets: map<int, Account>, foundation: Account)
    requires forall i | 0 <= i < |infos| :: infos[i].amount >= 0
    ensures Total(Batch(infos, asset, wallets, foundation)) + Skipped(infos, DistributionOf(asset), wallets) +
            Dust(infos)
         == Required(infos)
    ensures Total(Batch(infos, asset, wallets, foundation)) <= Required(infos)
  {
    var d := DistributionOf(asset);
    SharesAddUp(infos, d, wallets);
    var f := FarmerPayments(infos, d, wallets);
    var b, o := Pooled(Issuer(asset), Burned(infos, d)), Pooled(foundation, Foundation(infos, d));
    TotalConcat(f + b, o);
    TotalConcat(f, b);
    PooledTotal(Issuer(asset), Burned(infos, d));
    PooledTotal(foundation, Foundation(infos, d));
  }

  lemma PooledTotal(to: Account, amount: int)
    requires amount >= 0
    ensures Total(Pooled(to, amount)) == amount
  {
  }

  // ---------- Who is paid ----------

  // What an account is paid.
  function Given(payments: seq<Payment>, account: Account): nat {
    if payments == [] then 0
    else
      var last := payments[|payments| - 1];
      Given(payments[..|payments| - 1], account) + if last.to == account then last.amount else 0
  }

  function SumOver(infos: seq<Detail>, part: Detail -> int): int {
    if infos == [] then 0 else SumOver(infos[..|infos| - 1], part) + part(infos[|infos| - 1])
  }

  // What it is due: the farmers' parts of the details whose wallet it is, and as the issuer the burned
  // parts, and as the foundation the foundation's.
  function DueAsFarmer(infos: seq<Detail>, asset: Asset, wallets: map<int, Account>, account: Account): int {
    SumOver(infos, (info: Detail) =>
      if info.farmer in wallets && wallets[info.farmer] == account then FarmerPart(asset, info.amount) else 0)
  }

  function Due(infos: seq<Detail>, asset: Asset, wallets: map<int, Account>, foundation: Account,
               account: Account): int
  {
    DueAsFarmer(infos, asset, wallets, account) +
    (if account == Issuer(asset) then SumOver(infos, (info: Detail) => BurnedPart(asset, info.amount)) else 0) +
    (if account == foundation then SumOver(infos, (info: Detail) => FoundationPart(asset, info.amount)) else 0)
  }

  lemma {:induction false} GivenConcat(p: seq<Payment>, q: seq<Payment>, account: Account)
    ensures Given(p + q, account) == Given(p, account) + Given(q, account)
  {
    if q == [] {
      assert p + q == p;
    } else {
      GivenConcat(p, q[..|q| - 1], account);
      assert (p + q)[..|p + q| - 1] == p + q[..|q| - 1];
    }
  }

  lemma GivenPooled(to: Account, amount: int, account: Account)
    requires amount >= 0
    ensures Given(Pooled(to, amount), account) == if to == account then amount else 0
  {
  }

  lemma SharesAre(infos: seq<Detail>, asset: Asset)
    requires forall i | 0 <= i < |infos| :: infos[i].amount >= 0
    ensures forall i | 0 <= i < |infos| ::
              ShareOf(infos[i], DistributionOf(asset))
              == Shares(FarmerPart(asset, infos[i].amount), BurnedPart(asset, infos[i].amount),
                        FoundationPart(asset, infos[i].amount))
  {
    forall i | 0 <= i < |infos|
      ensures ShareOf(infos[i], DistributionOf(asset))
           == Shares(FarmerPart(asset, infos[i].amount), BurnedPart(asset, infos[i].amount),
                     FoundationPart(asset, infos[i].amount))
    {
      WhoGetsWhat(asset, infos[i].amount);
    }
  }

  lemma {:induction false} PooledParts(infos: seq<Detail>, asset: Asset)
    requires forall i | 0 <= i < |infos| :: infos[i].amount >= 0
    ensures Burned(infos, DistributionOf(asset)) == SumOver(infos, (info: Detail) => BurnedPart(asset, info.amount))
    ensures Foundation(infos, DistributionOf(asset))
         == SumOver(infos, (info: Detail) => FoundationPart(asset, info.amount))
  {
    if infos == [] {
    } else {
      PooledParts(infos[..|infos| - 1], asset);
      SharesAre(infos, asset);
    }
  }

  lemma {:induction false} FarmersAreGiven(infos: seq<Detail>, asset: Asset, wallets: map<int, Account>,
                                           account: Account)
    requires forall i | 0 <= i < |infos| :: infos[i].amount >= 0
    ensures Given(FarmerPayments(infos, DistributionOf(asset), wallets), account)
         == DueAsFarmer(infos, asset, wallets, account)
  {
    if infos == [] {
    } else {
      var init, last := infos[..|infos| - 1], infos[|infos| - 1];
      FarmersAreGiven(init, asset, wallets, account);
      SharesAre(infos, asset);
      GivenOneMore(FarmerPayments(init, DistributionOf(asset), wallets), last, asset, wallets, account);
    }
  }

  lemma GivenOneMore(before: seq<Payment>, info: Detail, asset: Asset, wallets: map<int, Account>, account: Account)
    requires info.amount >= 0
    ensures var share := FarmerPart(asset, info.amount);
            var paid := if share > 0 && info.farmer in wallets then [Payment(wallets[info.farmer], share)] else [];
            Given(before + paid, account)
            == Given(before, account) +
               if info.farmer in wallets && wallets[info.farmer] == account then share else 0
  {
    var share := FarmerPart(asset, info.amount);
    if share > 0 && info.farmer in wallets {
      var payment := Payment(wallets[info.farmer], share);
      assert (before + [payment])[..|before|] == before;
    } else {
      assert before + [] == before;
    }
  }

  // Everybody is paid exactly that.
  lemma BatchGives(infos: seq<Detail>, asset: Asset, wallets: map<int, Account>, foundation: Account, account: Account)
    requires forall i | 0 <= i < |infos| :: infos[i].amount >= 0
    ensures Given(Batch(infos, asset, wallets, foundation), account) == Due(infos, asset, wallets, foundation, account)
  {
    var d := DistributionOf(asset);
    var f := FarmerPayments(infos, d, wallets);
    var b, o := Pooled(Issuer(asset), Burned(infos, d)), Pooled(foundation, Foundation(infos, d));
    GivenConcat(f + b, o, account);
    GivenConcat(f, b, account);
    SharesAddUp(infos, d, wallets);
    GivenPooled(Issuer(asset), Burned(infos, d), account);
    GivenPooled(foundation, Foundation(infos, d), account);
    FarmersAreGiven(infos, asset, wallets, account);
    PooledParts(infos, asset);
  }

  // ---------- Building it ----------

  lemma {:induction false} RequiredMonotone(infos: seq<Detail>, n: nat)
    requires n <= |infos| && forall i | 0 <= i < |infos| :: infos[i].amount >= 0
    ensures 0 <= Required(infos[..n]) <= Required(infos)
    decreases |infos|
  {
    if n < |infos| {
      RequiredMonotone(infos[..|infos| - 1], n);
      assert infos[..|infos| - 1][..n] == infos[..n];
    } else {
      assert infos[..n] == infos;
      if infos != [] {
        RequiredMonotone(infos[..|infos| - 1], |infos| - 1);
        assert infos[..|infos| - 1][..|infos| - 1] == infos[..|infos| - 1];
      }
    }
  }

  // A prefix of admissible details is admissible, and none of its sums can overflow.
  lemma PrefixAdmissible(infos: seq<Detail>, n: nat, asset: Asset)
    requires Admissible(infos) && n < |infos|
    ensures Admissible(infos[..n]) && 10 * infos[n].amount <= MAX_INT64
    ensures 0 <= Burned(infos[..n], DistributionOf(asset)) <= MAX_INT64 / 10
    ensures 0 <= Foundation(infos[..n], DistributionOf(asset)) <= MAX_INT64 / 10
    ensures ShareOf(infos[n], DistributionOf(asset)).burned <= MAX_INT64 / 10
    ensures ShareOf(infos[n], DistributionOf(asset)).foundation <= MAX_INT64 / 10
  {
    RequiredMonotone(infos, n);
    RequiredMonotone(infos, n + 1);
    assert infos[..n + 1][..n] == infos[..n];
    SharesAddUp(infos[..n], DistributionOf(asset), map[]);
    ShareConserves(infos[n], DistributionOf(asset));
  }

  // The value a reservation's balance is compared with.
  method RequiredValue(infos: seq<Detail>) returns (requiredValue: int64)
    ensures Admissible(infos) ==> requiredValue == Required(infos)
  {
    requiredValue := 0;
    for i := 0 to |infos|
      invariant Admissible(infos) ==> requiredValue == Required(infos[..i])
    {
      assert infos[..i + 1][..i] == infos[..i];
      if Admissible(infos) {
        RequiredMonotone(infos, i + 1);
      }
      requiredValue := Wrap(requiredValue + infos[i].amount);
    }
    assert infos[..|infos|] == infos;
  }

  ghost predicate Collected(infos: seq<Detail>, n: nat, asset: Asset, wallets: map<int, Account>,
                            payments: seq<Payment>, toBurn: int, toFoundation: int)
    requires n <= |infos|
  {
    && payments == FarmerPayments(infos[..n], DistributionOf(asset), wallets)
    && toBurn == Burned(infos[..n], DistributionOf(asset))
    && toFoundation == Foundation(infos[..n], DistributionOf(asset))
  }

  lemma CollectOne(infos: seq<Detail>, n: nat, asset: Asset, wallets: map<int, Account>,
                   payments: seq<Payment>, toBurn: int, toFoundation: int)
    requires Admissible(infos) && n < |infos|
    requires Collected(infos, n, asset, wallets, payments, toBurn, toFoundation)
    ensures var share := ShareOf(infos[n], DistributionOf(asset));
            && Wrap(toBurn + share.burned) == toBurn + share.burned
            && Wrap(toFoundation + share.foundation) == toFoundation + share.foundation
            && Collected(infos, n + 1, asset, wallets,
                         payments +
                         if share.farmer > 0 &&
                         infos[n].farmer in wallets then [Payment(wallets[infos[n].farmer], share.farmer)] else [],
                         toBurn + share.burned, toFoundation + share.foundation)
  {
    PrefixAdmissible(infos, n, asset);
    ShareConserves(infos[n], DistributionOf(asset));
    assert infos[..n + 1][..n] == infos[..n];
  }

  // The loop of payoutFarmers that collects the payments.
  method CollectPayments(infos: seq<Detail>, asset: Asset, wallets: map<int, Account>, foundation: Account)
    returns (payments: seq<Payment>)
    ensures Admissible(infos) ==> payments == Batch(infos, asset, wallets, foundation)
    ensures Admissible(infos) ==>
              forall account :: Given(payments, account) == Due(infos, asset, wallets, foundation, account)
  {
    var d := DistributionOf(asset);
    var toBurn: int64, toFoundation: int64 := 0, 0;
    payments := [];
    for i := 0 to |infos|
      invariant Admissible(infos) ==> Collected(infos, i, asset, wallets, payments, toBurn, toFoundation)
    {
      var share := SplitPayout(infos[i].amount, d);
      if Admissible(infos) {
        PrefixAdmissible(infos, i, asset);
        assert share == ShareOf(infos[i], d);
        CollectOne(infos, i, asset, wallets, payments, toBurn, toFoundation);
      }
      toBurn := Wrap(toBurn + share.burned);
      toFoundation := Wrap(toFoundation + share.foundation);
      var paid: seq<Payment> := [];
      if share.farmer > 0 {
        if infos[i].farmer in wallets {
          paid := [Payment(wallets[infos[i].farmer], share.farmer)];
        }
      }
      payments := payments + paid;
    }
    assert infos[..|infos|] == infos;
    var pooled := payments;
    if toBurn > 0 {
      payments := payments + [Payment(Issuer(asset), toBurn)];
    }
    if toFoundation > 0 {
      payments := payments + [Payment(foundation, toFoundation)];
    }
    assert pooled + [] == pooled;
    EverybodyIsPaid(infos, asset, wallets, foundation, payments);
  }

  lemma EverybodyIsPaid(infos: seq<Detail>, asset: Asset, wallets: map<int, Account>, foundation: Account,
                        payments: seq<Payment>)
    ensures Admissible(infos) && payments == Batch(infos, asset, wallets, foundation) ==>
              forall account :: Given(payments, account) == Due(infos, asset, wallets, foundation, account)
  {
    if Admissible(infos) && payments == Batch(infos, asset, wallets, foundation) {
      forall account
        ensures Given(payments, account) == Due(infos, asset, wallets, foundation, account)
      {
        BatchGives(infos, asset, wallets, foundation, account);
      }
    }
  }

  // ---------- The batch on the ledger ----------

  function Effects(source: Account, asset: Asset, payments: seq<Payment>): seq<Effect> {
    if payments == [] then []
    else
      var last := payments[|payments| - 1];
      Effects(source, asset, payments[..|payments| - 1]) +
      [Debited(source, asset, last.amount), Credited(last.to, asset, last.amount)]
  }

  lemma {:induction false} EffectsShape(source: Account, asset: Asset, payments: seq<Payment>)
    ensures forall e | e in Effects(source, asset, payments) ::
              (e.Debited? && e.account == source && e.asset == asset) || (e.Credited? && e.asset == asset)
    ensures payments != [] ==> exists e :: e in Effects(source, asset, payments) && e.Debited? && e.account == source
  {
    if payments == [] {
    } else {
      var last := payments[|payments| - 1];
      EffectsShape(source, asset, payments[..|payments| - 1]);
      assert Debited(source, asset, last.amount) in Effects(source, asset, payments);
    }
  }

  // The source never pays more than the batch, exactly the batch if it pays others only, and
  // nobody else loses anything.
  lemma {:induction false} EffectsNet(source: Account, asset: Asset, payments: seq<Payment>, account: Account,
                                      other: Asset)
    ensures account == source && other == asset ==>
              0 - Total(payments) <= Net(Effects(source, asset, payments), account, other) <= 0
    ensures account == source && other == asset && (forall p | p in payments :: p.to != source) ==>
              Net(Effects(source, asset, payments), account, other) == 0 - Total(payments)
    ensures account != source || other != asset ==> Net(Effects(source, asset, payments), account, other) >= 0
  {
    if payments == [] {
    } else {
      var init, last := payments[..|payments| - 1], payments[|payments| - 1];
      EffectsNet(source, asset, init, account, other);
      var pair := [Debited(source, asset, last.amount), Credited(last.to, asset, last.amount)];
      NetConcat(Effects(source, asset, init), pair, account, other);
      PairNet(source, asset, last, account, other);
      assert last in payments;
    }
  }

  // On the ledger everybody gains what he is paid, and the source loses the whole batch.
  lemma {:induction false} EffectsGive(source: Account, asset: Asset, payments: seq<Payment>, account: Account)
    ensures Net(Effects(source, asset, payments), account, asset)
         == Given(payments, account) - if account == source then Total(payments) else 0
  {
    if payments == [] {
    } else {
      var init, last := payments[..|payments| - 1], payments[|payments| - 1];
      EffectsGive(source, asset, init, account);
      var pair := [Debited(source, asset, last.amount), Credited(last.to, asset, last.amount)];
      NetConcat(Effects(source, asset, init), pair, account, asset);
      PairNet(source, asset, last, account, asset);
    }
  }

  // What leaves the source for good.
  function ToOthers(source: Account, payments: seq<Payment>): nat {
    if payments == [] then 0
    else
      var last := payments[|payments| - 1];
      ToOthers(source, payments[..|payments| - 1]) + if last.to == source then 0 else last.amount
  }

  lemma {:induction false} EffectsTake(source: Account, asset: Asset, payments: seq<Payment>)
    ensures Net(Effects(source, asset, payments), source, asset) == 0 - ToOthers(source, payments)
  {
    if payments == [] {
    } else {
      var init, last := payments[..|payments| - 1], payments[|payments| - 1];
      EffectsTake(source, asset, init);
      var pair := [Debited(source, asset, last.amount), Credited(last.to, asset, last.amount)];
      NetConcat(Effects(source, asset, init), pair, source, asset);
      PairNet(source, asset, last, source, asset);
    }
  }

  lemma PairNet(source: Account, asset: Asset, p: Payment, account: Account, other: Asset)
    ensures Net([Debited(source, asset, p.amount), Credited(p.to, asset, p.amount)], account, other)
         == (if account == source && other == asset then 0 - p.amount else 0)
            + (if account == p.to && other == asset then p.amount else 0)
  {
    var pair := [Debited(source, asset, p.amount), Credited(p.to, asset, p.amount)];
    var first := [Debited(source, asset, p.amount)];
    assert pair[..1] == first && first[..0] == [];
    assert Net(first, account, other) == if account == source && other == asset then 0 - p.amount else 0;
  }

  // Of a batch of which only so many effects are looked at, only so many payments are seen.
  lemma {:induction false} BatchSeenInPart(source: Account, asset: Asset, payments: seq<Payment>, k: nat)
    requires k <= |payments|
    ensures |Effects(source, asset, payments)| == 2 * |payments|
    ensures Effects(source, asset, payments)[..2 * k] == Effects(source, asset, payments[..k])
  {
    if k == |payments| {
      assert payments[..k] == payments;
      EffectsSize(source, asset, payments);
    } else {
      var init := payments[..|payments| - 1];
      BatchSeenInPart(source, asset, init, k);
      assert init[..k] == payments[..k];
    }
  }

  lemma {:induction false} EffectsSize(source: Account, asset: Asset, payments: seq<Payment>)
    ensures |Effects(source, asset, payments)| == 2 * |payments|
  {
    if payments == [] {
    } else {
      EffectsSize(source, asset, payments[..|payments| - 1]);
    }
  }

  // Whoever gains from a payout or refund can name its payer.
  lemma BatchTraceable(source: Account, asset: Asset, payments: seq<Payment>, memo: Memo, account: Account,
                       other: Asset)
    ensures Traceable(Tx(memo, Effects(source, asset, payments)), account, other)
  {
    var effects := Effects(source, asset, payments);
    EffectsShape(source, asset, payments);
    EffectsNet(source, asset, payments, account, other);
    if Net(effects, account, other) > 0 {
      OnlyCredits(effects, account, other);
      assert account != source || other != asset;
      if account == source {
        assert forall e | e in effects :: e.asset == asset;
        NoEffectInAsset(effects, account, other);
        assert false;
      }
      assert payments != [];
      var e :| e in effects && e.Debited? && e.account == source;
      assert source in Payers(effects, account);
    }
  }

  lemma NoEffectInAsset(effects: seq<Effect>, account: Account, asset: Asset)
    requires forall e | e in effects :: !e.Other? && e.asset != asset
    ensures Net(effects, account, asset) == 0
  {
    OnlyCredits(effects, account, asset);
    OnlyDebits(effects, account, asset);
  }
}

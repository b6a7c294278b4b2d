/** The Stellar ledger as the explorer sees it, and the balance of one reservation read from it. */
module Ledger {
  import opened Collections
  import opened Payout

  type Account = string

  // Reservations are told apart by the memo of a transaction: the decimal form of their id.
  datatype Memo = NoMemo | ForReservation(id: int)

  datatype Effect =
    | Credited(account: Account, asset: Asset, amount: nat)
    | Debited(account: Account, asset: Asset, amount: nat)
    | Other(account: Account)

  datatype Tx = Tx(memo: Memo, effects: seq<Effect>)

  // ---------- One transaction ----------

  // What the effects add to the account.
  function Net(effects: seq<Effect>, account: Account, asset: Asset): int {
    if effects == [] then 0
    else
      Net(effects[..|effects| - 1], account, asset) +
      match effects[|effects| - 1]
      case Credited(a, x, n) => if a == account && x == asset then n else 0
      case Debited(a, x, n) => if a == account && x == asset then 0 - n else 0
      case Other(_) => 0
  }

  // What it gets in the asset, and what it gives.
  function CreditedTo(effects: seq<Effect>, account: Account, asset: Asset): nat {
    if effects == [] then 0
    else if effects[0].Credited? && effects[0].account == account && effects[0].asset == asset then
      effects[0].amount + CreditedTo(effects[1..], account, asset)
    else CreditedTo(effects[1..], account, asset)
  }

  function DebitedFrom(effects: seq<Effect>, account: Account, asset: Asset): nat {
    if effects == [] then 0
    else if effects[0].Debited? && effects[0].account == account && effects[0].asset == asset then
      effects[0].amount + DebitedFrom(effects[1..], account, asset)
    else DebitedFrom(effects[1..], account, asset)
  }

  lemma {:induction false} NetIsCreditsLessDebits(effects: seq<Effect>, account: Account, asset: Asset)
    ensures Net(effects, account, asset) ==
            CreditedTo(effects, account, asset) - DebitedFrom(effects, account, asset)
  {
    if effects != [] {
      var first, rest := [effects[0]], effects[1..];
      assert effects == first + rest && first[..0] == [];
      NetConcat(first, rest, account, asset);
      NetIsCreditsLessDebits(rest, account, asset);
    }
  }

  // The source's flag: the last effect on the account in this asset was a credit.
  predicate IsFunding(effects: seq<Effect>, account: Account, asset: Asset) {
    effects != [] &&
    match effects[|effects| - 1]
    case Credited(a, x, _) => (a == account && x == asset) || IsFunding(effects[..|effects| - 1], account, asset)
    case Debited(a, x, _) => !(a == account && x == asset) && IsFunding(effects[..|effects| - 1], account, asset)
    case Other(_) => IsFunding(effects[..|effects| - 1], account, asset)
  }

  // Everyone else who paid into this transaction, in any asset.
  function Payers(effects: seq<Effect>, account: Account): set<Account> {
    set e | e in effects && e.Debited? && e.account != account :: e.account
  }

  function TxDonors(effects: seq<Effect>, account: Account, asset: Asset): set<Account> {
    if IsFunding(effects, account, asset) then Payers(effects, account) else {}
  }

  // On the effects themselves: the account's last effect in this asset is a credit, and somebody else
  // is debited, in whatever asset.
  predicate PaidIn(effects: seq<Effect>, account: Account, asset: Asset, payer: Account) {
    && payer != account
    && (exists i :: 0 <= i < |effects| && effects[i].Debited? && effects[i].account == payer)
    && exists j :: 0 <= j < |effects| && LastIsCredit(effects, j, account, asset)
  }

  predicate LastIsCredit(effects: seq<Effect>, j: nat, account: Account, asset: Asset)
    requires j < |effects|
  {
    && effects[j].Credited? && effects[j].account == account && effects[j].asset == asset
    && forall k | j < k < |effects| ::
         !(effects[k].Debited? && effects[k].account == account && effects[k].asset == asset)
  }

  lemma {:induction false} FundingIff(effects: seq<Effect>, account: Account, asset: Asset)
    ensures IsFunding(effects, account, asset) <==>
              exists j :: 0 <= j < |effects| && LastIsCredit(effects, j, account, asset)
  {
    if effects == [] {
    } else {
      var init, n := effects[..|effects| - 1], |effects| - 1;
      FundingIff(init, account, asset);
      if IsFunding(effects, account, asset) {
        if !LastIsCredit(effects, n, account, asset) {
          var j :| 0 <= j < |init| && LastIsCredit(init, j, account, asset);
          assert LastIsCredit(effects, j, account, asset);
        }
      }
      if j :| 0 <= j < |effects| && LastIsCredit(effects, j, account, asset) {
        assert j < n ==> LastIsCredit(init, j, account, asset);
      }
    }
  }

  // A transaction's donors are exactly those who paid in.
  lemma DonorsPaidIn(effects: seq<Effect>, account: Account, asset: Asset, payer: Account)
    ensures payer in TxDonors(effects, account, asset) <==> PaidIn(effects, account, asset, payer)
  {
    FundingIff(effects, account, asset);
    if payer in Payers(effects, account) {
      var e :| e in effects && e.Debited? && e.account != account && e.account == payer;
      var i :| 0 <= i < |effects| && effects[i] == e;
    }
    if PaidIn(effects, account, asset, payer) {
      var i :| 0 <= i < |effects| && effects[i].Debited? && effects[i].account == payer;
      assert effects[i] in effects;
    }
  }

  // Somebody who paid in with a transaction of this memo.
  predicate PaidUnder(ledger: seq<Tx>, account: Account, memo: Memo, asset: Asset, payer: Account) {
    exists i :: 0 <= i < |ledger| && ledger[i].memo == memo && PaidIn(ledger[i].effects, account, asset, payer)
  }

  lemma FundersPaidIn(ledger: seq<Tx>, account: Account, memo: Memo, asset: Asset, payer: Account)
    ensures payer in Funders(ledger, account, memo, asset) <==> PaidUnder(ledger, account, memo, asset, payer)
  {
    if payer in Funders(ledger, account, memo, asset) {
      var tx :| tx in ledger && tx.memo == memo && payer in TxDonors(tx.effects, account, asset);
      var i :| 0 <= i < |ledger| && ledger[i] == tx;
      DonorsPaidIn(tx.effects, account, asset, payer);
    }
    if PaidUnder(ledger, account, memo, asset, payer) {
      var i :| 0 <= i < |ledger| && ledger[i].memo == memo && PaidIn(ledger[i].effects, account, asset, payer);
      DonorsPaidIn(ledger[i].effects, account, asset, payer);
      assert ledger[i] in ledger;
    }
  }

  lemma {:induction false} NetConcat(e1: seq<Effect>, e2: seq<Effect>, account: Account, asset: Asset)
    ensures Net(e1 + e2, account, asset) == Net(e1, account, asset) + Net(e2, account, asset)
  {
    if e2 == [] {
      assert e1 + e2 == e1;
    } else {
      NetConcat(e1, e2[..|e2| - 1], account, asset);
      assert (e1 + e2)[..|e1 + e2| - 1] == e1 + e2[..|e2| - 1];
    }
  }

  // Effects that never debit the account cannot lower its balance; if they raise it, the
  // transaction counts as funding.
  lemma {:induction false} OnlyCredits(effects: seq<Effect>, account: Account, asset: Asset)
    requires forall e | e in effects && e.Debited? :: e.account != account || e.asset != asset
    ensures Net(effects, account, asset) >= 0
    ensures Net(effects, account, asset) > 0 ==> IsFunding(effects, account, asset)
    ensures IsFunding(effects, account, asset) ==> exists e :: e in effects && e.Credited? && e.account == account
  {
    if effects == [] {
    } else {
      OnlyCredits(effects[..|effects| - 1], account, asset);
      assert effects[|effects| - 1] in effects;
      if IsFunding(effects[..|effects| - 1], account, asset) {
        var e :| e in effects[..|effects| - 1] && e.Credited? && e.account == account;
        assert e in effects;
      }
    }
  }

  // Effects that never credit the account cannot raise its balance.
  lemma {:induction false} OnlyDebits(effects: seq<Effect>, account: Account, asset: Asset)
    requires forall e | e in effects && e.Credited? :: e.account != account || e.asset != asset
    ensures Net(effects, account, asset) <= 0
  {
    if effects == [] {
    } else {
      OnlyDebits(effects[..|effects| - 1], account, asset);
      assert effects[|effects| - 1] in effects;
    }
  }

  // ---------- The whole ledger ----------

  // The balance kept under one memo: the explorer's notion of what a reservation owns.
  function Balance(ledger: seq<Tx>, account: Account, memo: Memo, asset: Asset): int {
    if ledger == [] then 0
    else
      var last := ledger[|ledger| - 1];
      Balance(ledger[..|ledger| - 1], account, memo, asset) +
      if last.memo == memo then Net(last.effects, account, asset) else 0
  }

  // Accounts that funded the balance.
  function Funders(ledger: seq<Tx>, account: Account, memo: Memo, asset: Asset): set<Account> {
    set tx, a | tx in ledger && tx.memo == memo && a in TxDonors(tx.effects, account, asset) :: a
  }

  // The account's real balance, whatever the memo.
  function Holdings(ledger: seq<Tx>, account: Account, asset: Asset): int {
    if ledger == [] then 0
    else Holdings(ledger[..|ledger| - 1], account, asset) + Net(ledger[|ledger| - 1].effects, account, asset)
  }

  lemma BalanceAppend(ledger: seq<Tx>, tx: Tx, account: Account, memo: Memo, asset: Asset)
    ensures Balance(ledger + [tx], account, memo, asset)
         == Balance(ledger, account, memo, asset) + if tx.memo == memo then Net(tx.effects, account, asset) else 0
  {
    assert (ledger + [tx])[..|ledger|] == ledger;
  }

  // A transaction is accounted for when whoever gains from it can name a payer.
  predicate Traceable(tx: Tx, account: Account, asset: Asset) {
    Net(tx.effects, account, asset) > 0 ==> TxDonors(tx.effects, account, asset) != {}
  }

  // funders[0] exists whenever there is something to refund.
  lemma {:induction false} PositiveBalanceHasFunder(ledger: seq<Tx>, account: Account, memo: Memo, asset: Asset)
    requires forall tx | tx in ledger :: Traceable(tx, account, asset)
    requires Balance(ledger, account, memo, asset) > 0
    ensures Funders(ledger, account, memo, asset) != {}
  {
    var init, last := ledger[..|ledger| - 1], ledger[|ledger| - 1];
    if last.memo == memo && Net(last.effects, account, asset) > 0 {
      assert last in ledger;
      var a :| a in TxDonors(last.effects, account, asset);
      assert a in Funders(ledger, account, memo, asset);
    } else {
      PositiveBalanceHasFunder(init, account, memo, asset);
      var a :| a in Funders(init, account, memo, asset);
      assert a in Funders(ledger, account, memo, asset);
    }
  }

  // ---------- The account covers every reservation on it ----------

  function SumBalances(ledger: seq<Tx>, account: Account, asset: Asset, memos: seq<Memo>): int {
    if memos == [] then 0
    else SumBalances(ledger, account, asset, memos[..|memos| - 1]) + Balance(ledger, account, memos[|memos| - 1], asset)
  }

  lemma {:induction false} SumAppend(ledger: seq<Tx>, tx: Tx, account: Account, asset: Asset, memos: seq<Memo>)
    requires Distinct(memos)
    ensures SumBalances(ledger + [tx], account, asset, memos)
         == SumBalances(ledger, account, asset, memos) + if tx.memo in memos then Net(tx.effects, account, asset) else 0
  {
    if memos == [] {
    } else {
      SumAppend(ledger, tx, account, asset, memos[..|memos| - 1]);
      BalanceAppend(ledger, tx, account, memos[|memos| - 1], asset);
    }
  }

  // The memos of a ledger, each once, after those already in `seen`.
  function AllMemos(ledger: seq<Tx>, seen: seq<Memo>): (memos: seq<Memo>)
    requires Distinct(seen)
    ensures Distinct(memos) && seen <= memos
    ensures forall tx | tx in ledger :: tx.memo in memos
  {
    if ledger == [] then seen
    else
      var memos := AllMemos(ledger[..|ledger| - 1], seen);
      var last := ledger[|ledger| - 1].memo;
      if last in memos then memos else memos + [last]
  }

  lemma {:induction false} HoldingsIsSum(ledger: seq<Tx>, account: Account, asset: Asset, memos: seq<Memo>)
    requires Distinct(memos) && forall tx | tx in ledger :: tx.memo in memos
    ensures Holdings(ledger, account, asset) == SumBalances(ledger, account, asset, memos)
  {
    if ledger == [] {
      EmptySum(account, asset, memos);
    } else {
      var init, last := ledger[..|ledger| - 1], ledger[|ledger| - 1];
      HoldingsIsSum(init, account, asset, memos);
      assert ledger == init + [last];
      SumAppend(init, last, account, asset, memos);
      assert last.memo in memos;
    }
  }

  lemma EmptySum(account: Account, asset: Asset, memos: seq<Memo>)
    ensures SumBalances([], account, asset, memos) == 0
  {
  }

  lemma {:induction false} SumGrows(ledger: seq<Tx>, account: Account, asset: Asset, few: seq<Memo>, many: seq<Memo>)
    requires few <= many
    requires forall memo :: Balance(ledger, account, memo, asset) >= 0
    ensures SumBalances(ledger, account, asset, few) <= SumBalances(ledger, account, asset, many)
  {
    if |few| < |many| {
      SumGrows(ledger, account, asset, few, many[..|many| - 1]);
    } else {
      assert few == many;
    }
  }

  // If no memo is overdrawn, the account holds at least what any set of reservations owns.
  lemma AccountCoversReservations(ledger: seq<Tx>, account: Account, asset: Asset, memos: seq<Memo>)
    requires Distinct(memos)
    requires forall memo :: Balance(ledger, account, memo, asset) >= 0
    ensures SumBalances(ledger, account, asset, memos) <= Holdings(ledger, account, asset)
  {
    var all := AllMemos(ledger, memos);
    HoldingsIsSum(ledger, account, asset, all);
    SumGrows(ledger, account, asset, memos, all);
  }
}

/** Reading a reservation's balance page by page while the ledger may still be growing. */
module Horizon {
  import opened Collections
  import opened Payout
  import opened Ledger

  const PAGE_LIMIT := 200

  // One call of GetBalance. Horizon only ever appends: `history` is the account's history as it
  // stands in the end, of which sizes[k] transactions are there when page k is requested. Lookup
  // number k of a transaction's effects fails when k is in `failing`.
  datatype Call = Call(history: seq<Tx>, sizes: seq<nat>, memo: Memo, failing: set<nat>, limit: nat) {
    predicate Valid() {
      && limit > 0 && sizes != [] && sizes[|sizes| - 1] == |history|
      && forall i, j | 0 <= i <= j < |sizes| :: sizes[i] <= sizes[j]
    }

    // How much there is to see when a page is requested.
    function Size(page: nat): (n: nat)
      requires Valid()
      ensures n <= |history|
    {
      if page < |sizes| then sizes[page] else |history|
    }

    // Up to where a page goes that starts behind position c. A transaction's paging token is its
    // position plus one.
    function PageEnd(page: nat, c: nat): (n: nat)
      requires Valid() && c <= Size(page)
      ensures c <= n <= Size(page) && n - c <= limit && (n - c < limit ==> n == Size(page))
    {
      if c + limit < Size(page) then c + limit else Size(page)
    }
  }

  // Positions of the transactions with this memo among the first n.
  function Matching(history: seq<Tx>, memo: Memo, n: nat): seq<nat>
    requires n <= |history|
  {
    if n == 0 then []
    else Matching(history, memo, n - 1) + if history[n - 1].memo == memo then [n - 1] else []
  }

  predicate Increasing(picked: seq<nat>) {
    forall i, j | 0 <= i < j < |picked| :: picked[i] < picked[j]
  }

  predicate Within(picked: seq<nat>, n: nat) {
    forall i | 0 <= i < |picked| :: picked[i] < n
  }

  function SumPicked(history: seq<Tx>, picked: seq<nat>, account: Account, asset: Asset): int
    requires Within(picked, |history|)
  {
    if picked == [] then 0
    else
      SumPicked(history, picked[..|picked| - 1], account, asset) +
      Net(history[picked[|picked| - 1]].effects, account, asset)
  }

  function DonorsPicked(history: seq<Tx>, picked: seq<nat>, account: Account, asset: Asset): set<Account>
    requires Within(picked, |history|)
  {
    if picked == [] then {}
    else
      DonorsPicked(history, picked[..|picked| - 1], account, asset) +
      TxDonors(history[picked[|picked| - 1]].effects, account, asset)
  }

  lemma PickOneMore(history: seq<Tx>, picked: seq<nat>, p: nat, account: Account, asset: Asset)
    requires Within(picked, |history|) && p < |history|
    ensures Within(picked + [p], |history|)
    ensures SumPicked(history, picked + [p], account, asset)
         == SumPicked(history, picked, account, asset) + Net(history[p].effects, account, asset)
    ensures DonorsPicked(history, picked + [p], account, asset)
         == DonorsPicked(history, picked, account, asset) + TxDonors(history[p].effects, account, asset)
  {
    assert (picked + [p])[..|picked|] == picked;
  }

  lemma MatchingNext(history: seq<Tx>, memo: Memo, p: nat)
    requires p < |history|
    ensures Matching(history, memo, p + 1)
         == if history[p].memo == memo then Matching(history, memo, p) + [p] else Matching(history, memo, p)
  {
  }

  lemma {:induction false} MatchingWithin(history: seq<Tx>, memo: Memo, n: nat)
    requires n <= |history|
    ensures Within(Matching(history, memo, n), n)
  {
    if n == 0 {
    } else {
      MatchingWithin(history, memo, n - 1);
    }
  }

  lemma FoldNext(history: seq<Tx>, n: nat, account: Account, memo: Memo, asset: Asset)
    requires n < |history|
    ensures Balance(history[..n + 1], account, memo, asset)
         == Balance(history[..n], account, memo, asset)
            + if history[n].memo == memo then Net(history[n].effects, account, asset) else 0
    ensures Funders(history[..n + 1], account, memo, asset)
         == Funders(history[..n], account, memo, asset)
            + if history[n].memo == memo then TxDonors(history[n].effects, account, asset) else {}
  {
    assert history[..n + 1] == history[..n] + [history[n]];
    BalanceAppend(history[..n], history[n], account, memo, asset);
    FundersAppend(history[..n], history[n], account, memo, asset);
  }

  lemma {:induction false} AllPickedSum(history: seq<Tx>, n: nat, account: Account, memo: Memo, asset: Asset)
    requires n <= |history| && Within(Matching(history, memo, n), n)
    ensures SumPicked(history, Matching(history, memo, n), account, asset)
         == Balance(history[..n], account, memo, asset)
  {
    if n == 0 {
      assert history[..0] == [];
    } else {
      MatchingWithin(history, memo, n - 1);
      AllPickedSum(history, n - 1, account, memo, asset);
      MatchingNext(history, memo, n - 1);
      FoldNext(history, n - 1, account, memo, asset);
      if history[n - 1].memo == memo {
        PickOneMore(history, Matching(history, memo, n - 1), n - 1, account, asset);
      }
    }
  }

  lemma {:induction false} AllPickedDonors(history: seq<Tx>, n: nat, account: Account, memo: Memo, asset: Asset)
    requires n <= |history| && Within(Matching(history, memo, n), n)
    ensures DonorsPicked(history, Matching(history, memo, n), account, asset)
         == Funders(history[..n], account, memo, asset)
  {
    if n == 0 {
      assert history[..0] == [];
    } else {
      MatchingWithin(history, memo, n - 1);
      AllPickedDonors(history, n - 1, account, memo, asset);
      MatchingNext(history, memo, n - 1);
      FoldNext(history, n - 1, account, memo, asset);
      if history[n - 1].memo == memo {
        PickOneMore(history, Matching(history, memo, n - 1), n - 1, account, asset);
      }
    }
  }

  // Counting every matching transaction once is folding the history.
  lemma AllPickedIsFold(history: seq<Tx>, n: nat, account: Account, memo: Memo, asset: Asset)
    requires n <= |history|
    ensures Within(Matching(history, memo, n), n)
    ensures SumPicked(history, Matching(history, memo, n), account, asset)
         == Balance(history[..n], account, memo, asset)
    ensures DonorsPicked(history, Matching(history, memo, n), account, asset)
         == Funders(history[..n], account, memo, asset)
  {
    MatchingWithin(history, memo, n);
    AllPickedSum(history, n, account, memo, asset);
    AllPickedDonors(history, n, account, memo, asset);
  }

  lemma FundersAppend(ledger: seq<Tx>, tx: Tx, account: Account, memo: Memo, asset: Asset)
    ensures Funders(ledger + [tx], account, memo, asset)
         == Funders(ledger, account, memo, asset) + if tx.memo == memo then TxDonors(tx.effects, account, asset) else {}
  {
    var l, r := Funders(ledger + [tx], account, memo, asset),
                Funders(ledger, account, memo, asset)
                + if tx.memo == memo then TxDonors(tx.effects, account, asset) else {};
    forall a | a in l
      ensures a in r
    {
      var t :| t in ledger + [tx] && t.memo == memo && a in TxDonors(t.effects, account, asset);
    }
    forall a | a in r
      ensures a in l
    {
      if a in Funders(ledger, account, memo, asset) {
        var t :| t in ledger && t.memo == memo && a in TxDonors(t.effects, account, asset);
        assert t in ledger + [tx];
      } else {
        assert tx in ledger + [tx];
      }
    }
  }

  // One transaction's effects, scanned in order.
  method ScanEffects(effects: seq<Effect>, account: Account, asset: Asset) returns (net: int, donors: set<Account>)
    ensures net == Net(effects, account, asset)
    ensures net == CreditedTo(effects, account, asset) - DebitedFrom(effects, account, asset)
    ensures donors == TxDonors(effects, account, asset)
    ensures forall a :: a in donors <==> PaidIn(effects, account, asset, a)
  {
    net := 0;
    var isFunding := false;
    for i := 0 to |effects|
      invariant net == Net(effects[..i], account, asset)
      invariant isFunding == IsFunding(effects[..i], account, asset)
    {
      assert effects[..i + 1][..i] == effects[..i];
      var effect := effects[i];
      if effect.account == account {
        if effect.Credited? {
          if effect.asset == asset {
            isFunding := true;
            net := net + effect.amount;
          }
        } else if effect.Debited? {
          if effect.asset == asset {
            isFunding := false;
            net := net - effect.amount;
          }
        }
      }
    }
    assert effects[..|effects|] == effects;
    donors := {};
    if isFunding {
      for i := 0 to |effects|
        invariant donors == Payers(effects[..i], account)
      {
        assert effects[..i + 1] == effects[..i] + [effects[i]];
        if effects[i].Debited? && effects[i].account != account {
          donors := donors + {effects[i].account};
        }
      }
      assert effects[..|effects|] == effects;
    }
    NetIsCreditsLessDebits(effects, account, asset);
    forall a
      ensures a in donors <==> PaidIn(effects, account, asset, a)
    {
      DonorsPaidIn(effects, account, asset, a);
    }
  }

  // `picked` are distinct transactions of this reservation before the cursor, and the running
  // total and donors are theirs.
  ghost predicate Counted(history: seq<Tx>, picked: seq<nat>, cursor: nat, account: Account, memo: Memo, asset: Asset,
                          total: int, donors: set<Account>)
  {
    && cursor <= |history|
    && Increasing(picked) && Within(picked, cursor)
    && (forall i | 0 <= i < |picked| :: history[picked[i]].memo == memo)
    && total == SumPicked(history, picked, account, asset)
    && donors == DonorsPicked(history, picked, account, asset)
  }

  lemma CountOne(history: seq<Tx>, picked: seq<nat>, cursor: nat, p: nat, account: Account, memo: Memo, asset: Asset,
                 total: int, donors: set<Account>)
    requires Counted(history, picked, cursor, account, memo, asset, total, donors)
    requires cursor <= p < |history| && history[p].memo == memo
    ensures Counted(history, picked + [p], p + 1, account, memo, asset,
                    total + Net(history[p].effects, account, asset),
                    donors + TxDonors(history[p].effects, account, asset))
  {
    PickOneMore(history, picked, p, account, asset);
    PicksGrow(picked, cursor, p);
  }

  lemma PicksGrow(picked: seq<nat>, cursor: nat, p: nat)
    requires Increasing(picked) && Within(picked, cursor) && cursor <= p
    ensures Increasing(picked + [p]) && Within(picked + [p], p + 1)
  {
  }

  lemma SkipOne(history: seq<Tx>, picked: seq<nat>, cursor: nat, p: nat, account: Account, memo: Memo, asset: Asset,
                total: int, donors: set<Account>)
    requires Counted(history, picked, cursor, account, memo, asset, total, donors)
    requires cursor <= p < |history|
    ensures Counted(history, picked, p + 1, account, memo, asset, total, donors)
  {
  }

  // ---------- Which transactions are read ----------

  // How many lookups the transactions from c up to n need.
  function Asked(history: seq<Tx>, memo: Memo, c: nat, n: nat): nat
    requires c <= n <= |history|
  {
    if n == c then 0 else Asked(history, memo, c, n - 1) + if history[n - 1].memo == memo then 1 else 0
  }

  // The lookup of position p, on a page that starts at c with lookup number `lookup`.
  predicate Fails(call: Call, lookup: nat, c: nat, p: nat)
    requires c <= p < |call.history|
  {
    call.history[p].memo == call.memo && lookup + Asked(call.history, call.memo, c, p) in call.failing
  }

  // Where the cursor stands after the page up to n: behind the last transaction that did not fail.
  function Resume(call: Call, lookup: nat, c: nat, n: nat): (cursor: nat)
    requires c <= n <= |call.history|
    ensures c <= cursor <= n
  {
    if n == c then c
    else if Fails(call, lookup, c, n - 1) then Resume(call, lookup, c, n - 1)
    else n
  }

  // What is counted on the page.
  function PagePicked(call: Call, lookup: nat, c: nat, n: nat): seq<nat>
    requires c <= n <= |call.history|
  {
    if n == c then []
    else
      PagePicked(call, lookup, c, n - 1) +
      if call.history[n - 1].memo == call.memo && !Fails(call, lookup, c, n - 1) then [n - 1] else []
  }

  // Lookups that are still going to fail.
  function Pending(failing: set<nat>, from: nat): set<nat> {
    set f | f in failing && f >= from
  }

  // The next request makes progress: it starts further on, or there are fewer failures to come.
  lemma NextPage(call: Call, lookup: nat, c: nat, n: nat)
    requires c < n <= |call.history|
    ensures var next := lookup + Asked(call.history, call.memo, c, n);
            && |Pending(call.failing, next)| <= |Pending(call.failing, lookup)|
            && (Resume(call, lookup, c, n) > c || |Pending(call.failing, next)| < |Pending(call.failing, lookup)|)
  {
    PendingFailuresShrink(call.failing, lookup, lookup + Asked(call.history, call.memo, c, n));
    AskedGrows(call.history, call.memo, c, c + 1, n);
    if Resume(call, lookup, c, n) == c {
      NothingResumed(call, lookup, c, n, c);
    }
  }

  lemma {:induction false} AskedGrows(history: seq<Tx>, memo: Memo, c: nat, m: nat, n: nat)
    requires c <= m <= n <= |history|
    ensures Asked(history, memo, c, m) <= Asked(history, memo, c, n)
  {
    if m == n {
    } else {
      AskedGrows(history, memo, c, m, n - 1);
    }
  }

  // Everything behind the cursor failed.
  lemma {:induction false} NothingResumed(call: Call, lookup: nat, c: nat, n: nat, p: nat)
    requires c <= n <= |call.history| && Resume(call, lookup, c, n) <= p < n
    ensures Fails(call, lookup, c, p)
  {
    if p == n - 1 {
    } else {
      NothingResumed(call, lookup, c, n - 1, p);
    }
  }

  lemma PendingFailuresShrink(failing: set<nat>, before: nat, now: nat)
    requires before <= now
    ensures |Pending(failing, now)| <= |Pending(failing, before)|
    ensures before in failing && before < now ==> |Pending(failing, now)| < |Pending(failing, before)|
  {
    var few, many := Pending(failing, now), Pending(failing, before);
    SubsetSize(few, many);
    if before in failing && before < now {
      SubsetSize(few, many - {before});
    }
  }

  // Pages are requested until one is not full. What failed at the end of a full page is asked for
  // again; what failed elsewhere is never counted.
  function PickedFrom(call: Call, page: nat, c: nat, lookup: nat): seq<nat>
    requires call.Valid() && c <= call.Size(page)
    decreases |Pending(call.failing, lookup)|, |call.history| - c
  {
    var n := call.PageEnd(page, c);
    if n - c < call.limit then PagePicked(call, lookup, c, n)
    else
      NextPage(call, lookup, c, n);
      PagePicked(call, lookup, c, n) +
      PickedFrom(call, page + 1, Resume(call, lookup, c, n), lookup + Asked(call.history, call.memo, c, n))
  }

  function LastPageFrom(call: Call, page: nat, c: nat, lookup: nat): (last: nat)
    requires call.Valid() && c <= call.Size(page)
    ensures page <= last
    decreases |Pending(call.failing, lookup)|, |call.history| - c
  {
    var n := call.PageEnd(page, c);
    if n - c < call.limit then page
    else
      NextPage(call, lookup, c, n);
      LastPageFrom(call, page + 1, Resume(call, lookup, c, n), lookup + Asked(call.history, call.memo, c, n))
  }

  // Every lookup is answered, if not at first then when it is asked again.
  predicate AnsweredFrom(call: Call, page: nat, c: nat, lookup: nat)
    requires call.Valid() && c <= call.Size(page)
    decreases |Pending(call.failing, lookup)|, |call.history| - c
  {
    var n := call.PageEnd(page, c);
    if n - c < call.limit then Answered(call, lookup, c, n)
    else
      NextPage(call, lookup, c, n);
      var next := Resume(call, lookup, c, n);
      Answered(call, lookup, c, next) &&
      AnsweredFrom(call, page + 1, next, lookup + Asked(call.history, call.memo, c, n))
  }

  predicate Answered(call: Call, lookup: nat, c: nat, n: nat)
    requires c <= n <= |call.history|
  {
    forall p | c <= p < n :: !Fails(call, lookup, c, p)
  }

  // The history as it stood at the last request, what was counted of it and what was missed: all
  // functions of the history, the size of a page and which lookups failed.
  function Seen(call: Call): (view: seq<Tx>)
    requires call.Valid()
    ensures view <= call.history
  {
    call.history[..call.Size(LastPageFrom(call, 0, 0, 0))]
  }

  function PickedBy(call: Call): seq<nat>
    requires call.Valid()
  {
    PickedFrom(call, 0, 0, 0)
  }

  function MissedBy(call: Call): seq<nat>
    requires call.Valid()
  {
    Missed(Seen(call), call.memo, |Seen(call)|, PickedBy(call))
  }

  predicate AllAnswered(call: Call)
    requires call.Valid()
  {
    AnsweredFrom(call, 0, 0, 0)
  }

  // ---------- The source's loops ----------

  // One transaction.
  method CountTx(call: Call, p: nat, lookup: nat, account: Account, asset: Asset,
                 total0: int, donors0: set<Account>, ghost picked0: seq<nat>, cursor0: nat)
    returns (total: int, donors: set<Account>, ghost picked: seq<nat>, cursor: nat, lookups: nat)
    requires p < |call.history| && cursor0 <= p
    requires Counted(call.history, picked0, cursor0, account, call.memo, asset, total0, donors0)
    ensures Counted(call.history, picked, cursor, account, call.memo, asset, total, donors)
    ensures if call.history[p].memo != call.memo then picked == picked0 && cursor == p + 1 && lookups == lookup
            else if lookup in call.failing then picked == picked0 && cursor == cursor0 && lookups == lookup + 1
            else picked == picked0 + [p] && cursor == p + 1 && lookups == lookup + 1
  {
    var tx := call.history[p];
    SkipOne(call.history, picked0, cursor0, p, account, call.memo, asset, total0, donors0);
    total, donors, picked, cursor, lookups := total0, donors0, picked0, cursor0, lookup;
    if tx.memo == call.memo {
      lookups := lookups + 1;
      if lookup in call.failing {
        return;
      }
      var net, payers := ScanEffects(tx.effects, account, asset);
      CountOne(call.history, picked, cursor, p, account, call.memo, asset, total, donors);
      total := total + net;
      donors := donors + payers;
      picked := picked + [p];
    }
    cursor := p + 1;
  }

  // What the loop variables are when the page is done up to n.
  predicate PageDone(call: Call, lookup: nat, c: nat, n: nat, before: seq<nat>, picked: seq<nat>, cursor: nat,
                     lookups: nat)
    requires c <= n <= |call.history|
  {
    && picked == before + PagePicked(call, lookup, c, n)
    && cursor == Resume(call, lookup, c, n)
    && lookups == lookup + Asked(call.history, call.memo, c, n)
  }

  lemma PageNext(call: Call, lookup: nat, c: nat, p: nat, before: seq<nat>, picked: seq<nat>, cursor: nat, lookups: nat)
    requires c <= p < |call.history| && PageDone(call, lookup, c, p, before, picked, cursor, lookups)
    ensures if call.history[p].memo != call.memo then PageDone(call, lookup, c, p + 1, before, picked, p + 1, lookups)
            else if lookups in call.failing then PageDone(call, lookup, c, p + 1, before, picked, cursor, lookups + 1)
            else PageDone(call, lookup, c, p + 1, before, picked + [p], p + 1, lookups + 1)
  {
    var page := PagePicked(call, lookup, c, p);
    Assoc(before, page, [p]);
    assert page + [] == page;
  }

  // One page.
  method CountPage(call: Call, start: nat, end: nat, lookup: nat, account: Account, asset: Asset,
                   total0: int, donors0: set<Account>, ghost picked0: seq<nat>)
    returns (total: int, donors: set<Account>, ghost picked: seq<nat>, cursor: nat, lookups: nat)
    requires start <= end <= |call.history|
    requires Counted(call.history, picked0, start, account, call.memo, asset, total0, donors0)
    ensures Counted(call.history, picked, cursor, account, call.memo, asset, total, donors)
    ensures PageDone(call, lookup, start, end, picked0, picked, cursor, lookups)
  {
    total, donors, picked, cursor, lookups := total0, donors0, picked0, start, lookup;
    assert picked0 + [] == picked0;
    for p := start to end
      invariant Counted(call.history, picked, cursor, account, call.memo, asset, total, donors)
      invariant PageDone(call, lookup, start, p, picked0, picked, cursor, lookups)
    {
      PageNext(call, lookup, start, p, picked0, picked, cursor, lookups);
      total, donors, picked, cursor, lookups :=
        CountTx(call, p, lookups, account, asset, total, donors, picked, cursor);
    }
  }

  // One request and the scan of what it returns. Another request follows if the page was full.
  method ReadPage(call: Call, page: nat, c: nat, lookup: nat, account: Account, asset: Asset,
                  total0: int, donors0: set<Account>, ghost picked0: seq<nat>)
    returns (more: bool, total: int, donors: set<Account>, ghost picked: seq<nat>, cursor: nat, lookups: nat)
    requires call.Valid() && ReadSoFar(call, page, c, lookup, picked0)
    requires Counted(call.history, picked0, c, account, call.memo, asset, total0, donors0)
    ensures Counted(call.history, picked, cursor, account, call.memo, asset, total, donors)
    ensures more ==> ReadSoFar(call, page + 1, cursor, lookups, picked)
    ensures more ==> cursor >= c && |Pending(call.failing, lookups)| <= |Pending(call.failing, lookup)|
    ensures more ==> cursor > c || |Pending(call.failing, lookups)| < |Pending(call.failing, lookup)|
    ensures !more ==> picked == PickedBy(call) && cursor <= |Seen(call)|
  {
    var end := call.PageEnd(page, c);
    total, donors, picked, cursor, lookups := CountPage(call, c, end, lookup, account, asset, total0, donors0, picked0);
    more := end - c == call.limit;
    if more {
      NextPage(call, lookup, c, end);
      ReadGoesOn(call, page, c, lookup, picked0, picked, cursor, lookups);
    } else {
      ReadEnds(call, page, c, lookup, picked0, picked, cursor);
    }
  }

  // GetBalance. No transaction is counted twice, and only transactions of this reservation are.
  method GetBalance(call: Call, account: Account, asset: Asset) returns (total: int, donors: set<Account>)
    requires call.Valid()
    ensures Counted(Seen(call), PickedBy(call), |Seen(call)|, account, call.memo, asset, total, donors)
    ensures total
         == Balance(Seen(call), account, call.memo, asset) - SumPicked(Seen(call), MissedBy(call), account, asset)
    // Whoever is returned as a donor paid in, and if every lookup is answered whoever paid in is.
    ensures forall a | a in donors :: PaidUnder(Seen(call), account, call.memo, asset, a)
    ensures AllAnswered(call) ==> forall a :: a in donors <==> PaidUnder(Seen(call), account, call.memo, asset, a)
  {
    ghost var picked: seq<nat> := [];
    total, donors := 0, {};
    var cursor: nat, lookups: nat, page: nat, more := 0, 0, 0, true;
    assert [] + PickedBy(call) == PickedBy(call);
    while more
      invariant more ==> ReadSoFar(call, page, cursor, lookups, picked)
      invariant !more ==> picked == PickedBy(call) && cursor <= |Seen(call)|
      invariant Counted(call.history, picked, cursor, account, call.memo, asset, total, donors)
      decreases more, |Pending(call.failing, lookups)|, |call.history| - cursor
    {
      more, total, donors, picked, cursor, lookups :=
        ReadPage(call, page, cursor, lookups, account, asset, total, donors, picked);
      page := page + 1;
    }
    CountedUpTo(Seen(call), call.history, picked, cursor, account, call.memo, asset, total, donors);
    DonorsAreThose(call, account, asset, total, donors);
  }

  lemma DonorsAreThose(call: Call, account: Account, asset: Asset, total: int, donors: set<Account>)
    requires call.Valid() && Counted(Seen(call), PickedBy(call), |Seen(call)|, account, call.memo, asset, total, donors)
    ensures forall a | a in donors :: PaidUnder(Seen(call), account, call.memo, asset, a)
    ensures AllAnswered(call) ==> forall a :: a in donors <==> PaidUnder(Seen(call), account, call.memo, asset, a)
  {
    ReadsExactlyIff(call, account, asset, total, donors);
    if AllAnswered(call) {
      AnsweredDonors(call, account, asset, total, donors);
    }
    forall a
      ensures a in Funders(Seen(call), account, call.memo, asset)
         <==> PaidUnder(Seen(call), account, call.memo, asset, a)
    {
      FundersPaidIn(Seen(call), account, call.memo, asset, a);
    }
  }

  lemma AnsweredDonors(call: Call, account: Account, asset: Asset, total: int, donors: set<Account>)
    requires call.Valid() && Counted(Seen(call), PickedBy(call), |Seen(call)|, account, call.memo, asset, total, donors)
    requires AllAnswered(call)
    ensures donors == Funders(Seen(call), account, call.memo, asset)
  {
    var view := Seen(call);
    assert view[..|view|] == view;
    ReadsExactlyIff(call, account, asset, total, donors);
    NothingMissedIff(call, view, |view|, PickedBy(call));
    AllPickedIsFold(view, |view|, account, call.memo, asset);
    var still := call.(history := view);
    PickedAreMatching(still, |view|, PickedBy(call));
  }

  // What has been counted and what is still going to be counted.
  predicate ReadSoFar(call: Call, page: nat, c: nat, lookup: nat, picked: seq<nat>)
    requires call.Valid()
  {
    && c <= call.Size(page)
    && picked + PickedFrom(call, page, c, lookup) == PickedBy(call)
    && LastPageFrom(call, page, c, lookup) == LastPageFrom(call, 0, 0, 0)
  }

  lemma ReadEnds(call: Call, page: nat, c: nat, lookup: nat, before: seq<nat>, picked: seq<nat>, cursor: nat)
    requires call.Valid() && ReadSoFar(call, page, c, lookup, before)
    requires var n := call.PageEnd(page, c);
             n - c < call.limit && cursor <= n && picked == before + PagePicked(call, lookup, c, n)
    ensures picked == PickedBy(call) && cursor <= |Seen(call)|
  {
  }

  lemma ReadGoesOn(call: Call, page: nat, c: nat, lookup: nat, before: seq<nat>, picked: seq<nat>, next: nat,
                   lookups: nat)
    requires call.Valid() && ReadSoFar(call, page, c, lookup, before)
    requires call.PageEnd(page, c) - c == call.limit
    requires PageDone(call, lookup, c, call.PageEnd(page, c), before, picked, next, lookups)
    ensures ReadSoFar(call, page + 1, next, lookups, picked)
  {
    Assoc(before, PagePicked(call, lookup, c, call.PageEnd(page, c)), PickedFrom(call, page + 1, next, lookups));
  }

  // Positions of this reservation's transactions that were not counted.
  function Missed(history: seq<Tx>, memo: Memo, n: nat, picked: seq<nat>): (missed: seq<nat>)
    requires n <= |history|
    ensures Within(missed, n)
  {
    if n == 0 then []
    else
      Missed(history, memo, n - 1, picked) +
      if history[n - 1].memo == memo && n - 1 !in picked then [n - 1] else []
  }

  lemma {:induction false} MissedIgnores(history: seq<Tx>, memo: Memo, n: nat, picked: seq<nat>, p: nat)
    requires n <= |history| && n <= p
    ensures Missed(history, memo, n, picked + [p]) == Missed(history, memo, n, picked)
  {
    if n == 0 {
    } else {
      MissedIgnores(history, memo, n - 1, picked, p);
    }
  }

  lemma LastPick(picked: seq<nat>, n: nat) returns (init: seq<nat>)
    requires n > 0 && Increasing(picked) && Within(picked, n) && n - 1 in picked
    ensures picked == init + [n - 1] && Increasing(init) && Within(init, n - 1)
  {
    init := picked[..|picked| - 1];
    var k :| 0 <= k < |picked| && picked[k] == n - 1;
    assert picked[k] <= picked[|picked| - 1];
  }

  lemma NotLastPick(picked: seq<nat>, n: nat)
    requires n > 0 && Within(picked, n) && n - 1 !in picked
    ensures Within(picked, n - 1)
  {
    forall i | 0 <= i < |picked|
      ensures picked[i] < n - 1
    {
      assert picked[i] in picked;
    }
  }

  // A misread balance is off by exactly what the missed transactions amount to: missing a
  // credit understates it, missing a payout or a refund overstates it.
  lemma {:induction false} MisreadBy(history: seq<Tx>, n: nat, picked: seq<nat>, account: Account, memo: Memo,
                                     asset: Asset)
    requires n <= |history| && Increasing(picked) && Within(picked, n)
    requires forall i | 0 <= i < |picked| :: history[picked[i]].memo == memo
    ensures SumPicked(history, picked, account, asset) +
            SumPicked(history, Missed(history, memo, n, picked), account, asset)
         == Balance(history[..n], account, memo, asset)
    decreases n
  {
    if n == 0 {
      PickedFit(picked, 0);
      assert history[..0] == [];
    } else if n - 1 in picked {
      var init := LastPick(picked, n);
      assert forall i | 0 <= i < |init| :: init[i] == picked[i];
      MisreadBy(history, n - 1, init, account, memo, asset);
      PickNext(history, n, init, account, memo, asset);
    } else {
      NotLastPick(picked, n);
      MisreadBy(history, n - 1, picked, account, memo, asset);
      MissNext(history, n, picked, account, memo, asset);
    }
  }

  lemma PickNext(history: seq<Tx>, n: nat, init: seq<nat>, account: Account, memo: Memo, asset: Asset)
    requires 0 < n <= |history| && Within(init, n - 1) && history[n - 1].memo == memo
    requires SumPicked(history, init, account, asset) +
             SumPicked(history, Missed(history, memo, n - 1, init), account, asset)
          == Balance(history[..n - 1], account, memo, asset)
    ensures SumPicked(history, init + [n - 1], account, asset)
            + SumPicked(history, Missed(history, memo, n, init + [n - 1]), account, asset)
         == Balance(history[..n], account, memo, asset)
  {
    FoldNext(history, n - 1, account, memo, asset);
    MissedAfterPick(history, memo, n, init);
    PickOneMore(history, init, n - 1, account, asset);
  }

  lemma MissedAfterPick(history: seq<Tx>, memo: Memo, n: nat, init: seq<nat>)
    requires 0 < n <= |history|
    ensures Missed(history, memo, n, init + [n - 1]) == Missed(history, memo, n - 1, init)
  {
    var picked := init + [n - 1];
    assert picked[|init|] == n - 1;
    NotMissed(history, memo, n, picked);
    MissedIgnores(history, memo, n - 1, init, n - 1);
  }

  lemma NotMissed(history: seq<Tx>, memo: Memo, n: nat, picked: seq<nat>)
    requires 0 < n <= |history| && n - 1 in picked
    ensures Missed(history, memo, n, picked) == Missed(history, memo, n - 1, picked)
  {
    MissedNext(history, memo, n, picked);
  }

  lemma MissNext(history: seq<Tx>, n: nat, picked: seq<nat>, account: Account, memo: Memo, asset: Asset)
    requires 0 < n <= |history| && Within(picked, n - 1) && n - 1 !in picked
    requires SumPicked(history, picked, account, asset) +
             SumPicked(history, Missed(history, memo, n - 1, picked), account, asset)
          == Balance(history[..n - 1], account, memo, asset)
    ensures SumPicked(history, picked, account, asset) +
            SumPicked(history, Missed(history, memo, n, picked), account, asset)
         == Balance(history[..n], account, memo, asset)
  {
    FoldNext(history, n - 1, account, memo, asset);
    MissedNext(history, memo, n, picked);
    if history[n - 1].memo == memo {
      PickOneMore(history, Missed(history, memo, n - 1, picked), n - 1, account, asset);
    }
  }

  lemma MissedNext(history: seq<Tx>, memo: Memo, n: nat, picked: seq<nat>)
    requires 0 < n <= |history|
    ensures Missed(history, memo, n, picked)
         == if history[n - 1].memo == memo && n - 1 !in picked then Missed(history, memo, n - 1, picked) + [n - 1]
            else Missed(history, memo, n - 1, picked)
  {
  }

  // What was counted in the longest history was counted in the view that was read.
  lemma CountedUpTo(view: seq<Tx>, history: seq<Tx>, picked: seq<nat>, cursor: nat, account: Account, memo: Memo,
                    asset: Asset, total: int, donors: set<Account>)
    requires view <= history && cursor <= |view|
    requires Counted(history, picked, cursor, account, memo, asset, total, donors)
    ensures Counted(view, picked, |view|, account, memo, asset, total, donors)
    ensures total == Balance(view, account, memo, asset)
                   - SumPicked(view, Missed(view, memo, |view|, picked), account, asset)
  {
    PrefixPicked(view, history, picked, account, asset);
    assert view[..|view|] == view;
    MisreadBy(view, |view|, picked, account, memo, asset);
  }

  lemma {:induction false} PrefixPicked(view: seq<Tx>, history: seq<Tx>, picked: seq<nat>, account: Account,
                                        asset: Asset)
    requires view <= history && Within(picked, |view|)
    ensures SumPicked(view, picked, account, asset) == SumPicked(history, picked, account, asset)
    ensures DonorsPicked(view, picked, account, asset) == DonorsPicked(history, picked, account, asset)
  {
    if picked == [] {
    } else {
      PrefixPicked(view, history, picked[..|picked| - 1], account, asset);
    }
  }

  // ---------- When a read is exact ----------

  lemma {:induction false} PagePickedIff(call: Call, lookup: nat, c: nat, n: nat, p: nat)
    requires c <= n <= |call.history|
    ensures p in PagePicked(call, lookup, c, n) <==>
            c <= p < n && call.history[p].memo == call.memo && !Fails(call, lookup, c, p)
  {
    if n == c {
    } else {
      PagePickedIff(call, lookup, c, n - 1, p);
    }
  }

  // Distinct transactions of this reservation from c up to n.
  predicate Picks(call: Call, picked: seq<nat>, c: nat, n: nat) {
    && Increasing(picked) && Within(picked, n) && n <= |call.history|
    && forall i | 0 <= i < |picked| :: c <= picked[i] && call.history[picked[i]].memo == call.memo
  }

  lemma {:induction false} PagePicks(call: Call, lookup: nat, c: nat, n: nat)
    requires c <= n <= |call.history|
    ensures Picks(call, PagePicked(call, lookup, c, n), c, Resume(call, lookup, c, n))
  {
    if n == c {
    } else {
      PagePicks(call, lookup, c, n - 1);
    }
  }

  lemma {:induction false} PicksFrom(call: Call, page: nat, c: nat, lookup: nat)
    requires call.Valid() && c <= call.Size(page)
    ensures Picks(call, PickedFrom(call, page, c, lookup), c, call.Size(LastPageFrom(call, page, c, lookup)))
    decreases |Pending(call.failing, lookup)|, |call.history| - c
  {
    var n := call.PageEnd(page, c);
    PagePicks(call, lookup, c, n);
    if n - c < call.limit {
    } else {
      NextPage(call, lookup, c, n);
      SizesGrow(call, page, LastPageFrom(call, page, c, lookup));
      PicksFrom(call, page + 1, Resume(call, lookup, c, n), lookup + Asked(call.history, call.memo, c, n));
    }
  }

  // This reservation's transactions from c up to n are all there.
  predicate AllPicked(call: Call, c: nat, n: nat, picked: seq<nat>)
    requires n <= |call.history|
  {
    forall p: nat | c <= p < n && call.history[p].memo == call.memo :: p in picked
  }

  lemma SizesGrow(call: Call, k: nat, m: nat)
    requires call.Valid() && k <= m
    ensures call.Size(k) <= call.Size(m)
  {
  }

  lemma AnsweredPageIff(call: Call, lookup: nat, c: nat, n: nat)
    requires c <= n <= |call.history|
    ensures Answered(call, lookup, c, n) <==> AllPicked(call, c, n, PagePicked(call, lookup, c, n))
  {
    forall p: nat | c <= p < n
      ensures p in PagePicked(call, lookup, c, n) <==> call.history[p].memo == call.memo && !Fails(call, lookup, c, p)
    {
      PagePickedIff(call, lookup, c, n, p);
    }
    if AllPicked(call, c, n, PagePicked(call, lookup, c, n)) {
      forall p | c <= p < n
        ensures !Fails(call, lookup, c, p)
      {
        assert call.history[p].memo == call.memo ==> p in PagePicked(call, lookup, c, n);
      }
    }
  }

  // Nothing is missed from c on exactly when every lookup is answered in the end.
  lemma {:induction false} AnsweredIff(call: Call, page: nat, c: nat, lookup: nat)
    requires call.Valid() && c <= call.Size(page)
    ensures AnsweredFrom(call, page, c, lookup) <==>
            AllPicked(call, c, call.Size(LastPageFrom(call, page, c, lookup)), PickedFrom(call, page, c, lookup))
    decreases |Pending(call.failing, lookup)|, |call.history| - c
  {
    var n := call.PageEnd(page, c);
    if n - c < call.limit {
      AnsweredPageIff(call, lookup, c, n);
    } else {
      var next, lookups := Resume(call, lookup, c, n), lookup + Asked(call.history, call.memo, c, n);
      var last := LastPageFrom(call, page, c, lookup);
      NextPage(call, lookup, c, n);
      AnsweredIff(call, page + 1, next, lookups);
      SizesGrow(call, page, last);
      var rest := PickedFrom(call, page + 1, next, lookups);
      PicksFrom(call, page + 1, next, lookups);
      FullPageIff(call, lookup, c, n, call.Size(last), rest);
    }
  }

  lemma FullPageIff(call: Call, lookup: nat, c: nat, n: nat, size: nat, rest: seq<nat>)
    requires c <= n <= size <= |call.history|
    requires forall p | p in rest :: Resume(call, lookup, c, n) <= p
    ensures AllPicked(call, c, size, PagePicked(call, lookup, c, n) + rest) <==>
            Answered(call, lookup, c, Resume(call, lookup, c, n)) &&
            AllPicked(call, Resume(call, lookup, c, n), size, rest)
  {
    var next, picked := Resume(call, lookup, c, n), PagePicked(call, lookup, c, n);
    forall p: nat | c <= p < size
      ensures p < next ==> (p in picked + rest <==> call.history[p].memo == call.memo && !Fails(call, lookup, c, p))
      ensures next <= p ==> (p in picked + rest <==> p in rest)
    {
      PagePickedIff(call, lookup, c, n, p);
      if next <= p < n {
        NothingResumed(call, lookup, c, n, p);
      }
    }
    if AllPicked(call, c, size, picked + rest) {
      forall p | c <= p < next
        ensures !Fails(call, lookup, c, p)
      {
        assert call.history[p].memo == call.memo ==> p in picked + rest;
      }
    }
  }

  lemma {:induction false} NothingMissedIff(call: Call, history: seq<Tx>, n: nat, picked: seq<nat>)
    requires n <= |history| && history <= call.history
    ensures Missed(history, call.memo, n, picked) == [] <==> AllPicked(call, 0, n, picked)
  {
    if n == 0 {
    } else {
      NothingMissedIff(call, history, n - 1, picked);
      assert AllPicked(call, 0, n, picked) ==> (call.history[n - 1].memo == call.memo ==> n - 1 in picked);
    }
  }

  // A read is exact if and only if what it missed nets to nothing, and it misses nothing if and only
  // if every lookup is answered in the end.
  lemma ReadsExactlyIff(call: Call, account: Account, asset: Asset, total: int, donors: set<Account>)
    requires call.Valid() && Counted(Seen(call), PickedBy(call), |Seen(call)|, account, call.memo, asset, total, donors)
    ensures total == Balance(Seen(call), account, call.memo, asset) <==>
              SumPicked(Seen(call), MissedBy(call), account, asset) == 0
    ensures MissedBy(call) == [] <==> AllAnswered(call)
    ensures donors <= Funders(Seen(call), account, call.memo, asset)
  {
    assert Seen(call)[..|Seen(call)|] == Seen(call);
    MisreadBy(Seen(call), |Seen(call)|, PickedBy(call), account, call.memo, asset);
    AnsweredIff(call, 0, 0, 0);
    NothingMissedIff(call, Seen(call), |Seen(call)|, PickedBy(call));
    DonorsAreFunders(Seen(call), PickedBy(call), account, call.memo, asset);
  }

  lemma {:induction false} DonorsAreFunders(history: seq<Tx>, picked: seq<nat>, account: Account, memo: Memo,
                                            asset: Asset)
    requires Within(picked, |history|) && forall i | 0 <= i < |picked| :: history[picked[i]].memo == memo
    ensures DonorsPicked(history, picked, account, asset) <= Funders(history, account, memo, asset)
  {
    if picked == [] {
    } else {
      DonorsAreFunders(history, picked[..|picked| - 1], account, memo, asset);
      assert history[picked[|picked| - 1]] in history;
    }
  }

  // ---------- Reading a ledger that stands still ----------

  function Still(ledger: seq<Tx>, memo: Memo, failing: set<nat>): (call: Call)
    ensures call.Valid()
  {
    Call(ledger, [|ledger|], memo, failing, PAGE_LIMIT)
  }

  // The balance and the donors that are read.
  function Reading(ledger: seq<Tx>, account: Account, memo: Memo, asset: Asset, failing: set<nat>): int {
    PicksFrom(Still(ledger, memo, failing), 0, 0, 0);
    SumPicked(ledger, PickedBy(Still(ledger, memo, failing)), account, asset)
  }

  function ReadDonors(ledger: seq<Tx>, account: Account, memo: Memo, asset: Asset, failing: set<nat>): set<Account> {
    PicksFrom(Still(ledger, memo, failing), 0, 0, 0);
    DonorsPicked(ledger, PickedBy(Still(ledger, memo, failing)), account, asset)
  }

  method Read(ledger: seq<Tx>, account: Account, memo: Memo, asset: Asset, failing: set<nat>)
    returns (total: int, donors: set<Account>)
    ensures total == Reading(ledger, account, memo, asset, failing)
    ensures donors == ReadDonors(ledger, account, memo, asset, failing)
    ensures forall a | a in donors :: PaidUnder(ledger, account, memo, asset, a)
    ensures AllAnswered(Still(ledger, memo, failing)) ==>
              forall a :: a in donors <==> PaidUnder(ledger, account, memo, asset, a)
  {
    total, donors := GetBalance(Still(ledger, memo, failing), account, asset);
    assert Seen(Still(ledger, memo, failing)) == ledger;
  }

  // A reservation's balance is read right if every lookup is answered in the end. Whoever is read as
  // a donor is one.
  lemma ReadingIs(ledger: seq<Tx>, account: Account, memo: Memo, asset: Asset, failing: set<nat>)
    ensures ReadDonors(ledger, account, memo, asset, failing) <= Funders(ledger, account, memo, asset)
    ensures AllAnswered(Still(ledger, memo, failing)) ==>
              && Reading(ledger, account, memo, asset, failing) == Balance(ledger, account, memo, asset)
              && ReadDonors(ledger, account, memo, asset, failing) == Funders(ledger, account, memo, asset)
  {
    var call := Still(ledger, memo, failing);
    assert Seen(call) == ledger && ledger[..|ledger|] == ledger;
    PicksFrom(call, 0, 0, 0);
    var total := Reading(ledger, account, memo, asset, failing);
    var donors := ReadDonors(ledger, account, memo, asset, failing);
    ReadsExactlyIff(call, account, asset, total, donors);
    if AllAnswered(call) {
      NothingMissedIff(call, ledger, |ledger|, PickedBy(call));
      AllPickedIsFold(ledger, |ledger|, account, memo, asset);
      PickedAreMatching(call, |ledger|, PickedBy(call));
    }
  }

  // What is read is the balance less what the missed transactions amount to.
  function MissedNet(ledger: seq<Tx>, account: Account, memo: Memo, asset: Asset, failing: set<nat>): int {
    SumPicked(ledger, MissedBy(Still(ledger, memo, failing)), account, asset)
  }

  lemma ReadingMisses(ledger: seq<Tx>, account: Account, memo: Memo, asset: Asset, failing: set<nat>)
    ensures Reading(ledger, account, memo, asset, failing)
         == Balance(ledger, account, memo, asset) - MissedNet(ledger, account, memo, asset, failing)
  {
    var call := Still(ledger, memo, failing);
    assert Seen(call) == ledger && ledger[..|ledger|] == ledger;
    PicksFrom(call, 0, 0, 0);
    MisreadBy(ledger, |ledger|, PickedBy(call), account, memo, asset);
  }

  // None of the transactions that are read names a donor, ...
  predicate NoDonorRead(ledger: seq<Tx>, account: Account, memo: Memo, asset: Asset, failing: set<nat>) {
    forall p | p in PickedBy(Still(ledger, memo, failing)) && p < |ledger| ::
      TxDonors(ledger[p].effects, account, asset) == {}
  }

  // ... and one of them takes money out.
  predicate DebitRead(ledger: seq<Tx>, account: Account, memo: Memo, asset: Asset, failing: set<nat>) {
    exists p ::
      p in PickedBy(Still(ledger, memo, failing)) && p < |ledger| && Net(ledger[p].effects, account, asset) < 0
  }

  // That is when something but no donor is read.
  lemma NoDonorsIff(ledger: seq<Tx>, account: Account, memo: Memo, asset: Asset, failing: set<nat>)
    requires forall tx | tx in ledger :: Traceable(tx, account, asset)
    ensures Reading(ledger, account, memo, asset, failing) != 0 &&
            ReadDonors(ledger, account, memo, asset, failing) == {}
       <==> NoDonorRead(ledger, account, memo, asset, failing) && DebitRead(ledger, account, memo, asset, failing)
  {
    var picked := PickedBy(Still(ledger, memo, failing));
    PicksFrom(Still(ledger, memo, failing), 0, 0, 0);
    PickedDonors(ledger, picked, account, asset);
    PickedNet(ledger, picked, account, asset);
    if NoDonorRead(ledger, account, memo, asset, failing) {
      forall i | 0 <= i < |picked|
        ensures TxDonors(ledger[picked[i]].effects, account, asset) == {}
      {
        assert picked[i] in picked;
      }
    }
  }

  // What is read without a donor is not positive.
  lemma NoDonorsTakes(ledger: seq<Tx>, account: Account, memo: Memo, asset: Asset, failing: set<nat>)
    requires forall tx | tx in ledger :: Traceable(tx, account, asset)
    requires ReadDonors(ledger, account, memo, asset, failing) == {}
    ensures Reading(ledger, account, memo, asset, failing) <= 0
  {
    var picked := PickedBy(Still(ledger, memo, failing));
    PicksFrom(Still(ledger, memo, failing), 0, 0, 0);
    PickedDonors(ledger, picked, account, asset);
    PickedNet(ledger, picked, account, asset);
  }

  lemma {:induction false} PickedDonors(history: seq<Tx>, picked: seq<nat>, account: Account, asset: Asset)
    requires Within(picked, |history|)
    ensures DonorsPicked(history, picked, account, asset) == {} <==>
              forall i | 0 <= i < |picked| :: TxDonors(history[picked[i]].effects, account, asset) == {}
  {
    if picked == [] {
    } else {
      PickedDonors(history, picked[..|picked| - 1], account, asset);
    }
  }

  lemma {:induction false} PickedNet(history: seq<Tx>, picked: seq<nat>, account: Account, asset: Asset)
    requires Within(picked, |history|) && forall tx | tx in history :: Traceable(tx, account, asset)
    ensures (forall i | 0 <= i < |picked| :: TxDonors(history[picked[i]].effects, account, asset) == {}) ==>
              && SumPicked(history, picked, account, asset) <= 0
              && (SumPicked(history, picked, account, asset) < 0 <==>
                  exists i :: 0 <= i < |picked| && Net(history[picked[i]].effects, account, asset) < 0)
  {
    if picked == [] {
    } else {
      var init, last := picked[..|picked| - 1], history[picked[|picked| - 1]];
      PickedNet(history, init, account, asset);
      assert last in history && Traceable(last, account, asset);
      if i :| 0 <= i < |init| && Net(history[init[i]].effects, account, asset) < 0 {
        assert Net(history[picked[i]].effects, account, asset) < 0;
      }
    }
  }

  // A balance from which nothing was ever taken is not read too high.
  lemma NothingTaken(ledger: seq<Tx>, account: Account, memo: Memo, asset: Asset, failing: set<nat>)
    requires forall tx | tx in ledger && tx.memo == memo :: Net(tx.effects, account, asset) >= 0
    ensures 0 <= Reading(ledger, account, memo, asset, failing) <= Balance(ledger, account, memo, asset)
  {
    var call := Still(ledger, memo, failing);
    ReadingMisses(ledger, account, memo, asset, failing);
    PicksFrom(call, 0, 0, 0);
    NothingTakenPicked(ledger, PickedBy(call), account, memo, asset);
    MissedMatch(ledger, memo, |ledger|, PickedBy(call));
    assert Seen(call) == ledger;
    NothingTakenPicked(ledger, MissedBy(call), account, memo, asset);
  }

  lemma {:induction false} NothingTakenPicked(ledger: seq<Tx>, picked: seq<nat>, account: Account, memo: Memo,
                                              asset: Asset)
    requires forall tx | tx in ledger && tx.memo == memo :: Net(tx.effects, account, asset) >= 0
    requires Within(picked, |ledger|) && forall i | 0 <= i < |picked| :: ledger[picked[i]].memo == memo
    ensures SumPicked(ledger, picked, account, asset) >= 0
  {
    if picked == [] {
    } else {
      NothingTakenPicked(ledger, picked[..|picked| - 1], account, memo, asset);
      assert ledger[picked[|picked| - 1]] in ledger;
    }
  }

  lemma {:induction false} MissedMatch(history: seq<Tx>, memo: Memo, n: nat, picked: seq<nat>)
    requires n <= |history|
    ensures forall i | 0 <= i < |Missed(history, memo, n, picked)| ::
              history[Missed(history, memo, n, picked)[i]].memo == memo
  {
    if n == 0 {
    } else {
      MissedMatch(history, memo, n - 1, picked);
    }
  }

  lemma {:induction false} PickedFit(picked: seq<nat>, n: nat)
    requires Increasing(picked) && Within(picked, n)
    ensures |picked| <= n
  {
    if picked == [] {
    } else {
      PickedFit(picked[..|picked| - 1], picked[|picked| - 1]);
    }
  }

  // All of them in order is the list of them all.
  lemma {:induction false} PickedAreMatching(call: Call, n: nat, picked: seq<nat>)
    requires Picks(call, picked, 0, n) && AllPicked(call, 0, n, picked)
    ensures picked == Matching(call.history, call.memo, n)
  {
    if n == 0 {
      PickedFit(picked, 0);
    } else {
      MatchingNext(call.history, call.memo, n - 1);
      if call.history[n - 1].memo == call.memo {
        var init := LastPick(picked, n);
        assert forall i | 0 <= i < |init| :: init[i] == picked[i];
        assert AllPicked(call, 0, n - 1, init) by {
          forall p: nat | p < n - 1 && call.history[p].memo == call.memo
            ensures p in init
          {
            assert p in picked;
          }
        }
        PickedAreMatching(call, n - 1, init);
      } else {
        assert n - 1 !in picked;
        NotLastPick(picked, n);
        PickedAreMatching(call, n - 1, picked);
      }
    }
  }

  lemma NoFailures(ledger: seq<Tx>, memo: Memo)
    ensures AllAnswered(Still(ledger, memo, {}))
  {
    NoneFailFrom(Still(ledger, memo, {}), 0, 0, 0);
  }

  lemma {:induction false} NoneFailFrom(call: Call, page: nat, c: nat, lookup: nat)
    requires call.Valid() && call.failing == {} && c <= call.Size(page)
    ensures AnsweredFrom(call, page, c, lookup)
    decreases |call.history| - c
  {
    var n := call.PageEnd(page, c);
    if n - c < call.limit {
    } else {
      NextPage(call, lookup, c, n);
      assert Pending(call.failing, lookup) == {};
      NoneFailFrom(call, page + 1, Resume(call, lookup, c, n), lookup + Asked(call.history, call.memo, c, n));
    }
  }

  // One failed lookup is enough: if the last transaction of a history of less than a page is this
  // reservation's and its lookup fails, what is read is the balance before it. If it was a payout
  // or a refund that is too much.
  lemma LastLookupFails(ledger: seq<Tx>, last: Tx, account: Account, memo: Memo, asset: Asset)
    requires |ledger| + 1 < PAGE_LIMIT && last.memo == memo
    ensures var failing := {Asked(ledger, memo, 0, |ledger|)};
            && Reading(ledger + [last], account, memo, asset, failing) == Balance(ledger, account, memo, asset)
            && Reading(ledger + [last], account, memo, asset, failing)
               == Balance(ledger + [last], account, memo, asset) - Net(last.effects, account, asset)
            && ReadDonors(ledger + [last], account, memo, asset, failing) == Funders(ledger, account, memo, asset)
  {
    var history, k := ledger + [last], Asked(ledger, memo, 0, |ledger|);
    var call := Still(history, memo, {k});
    AskedPrefix(ledger, history, memo, |ledger|);
    AllButTheLast(call, k, |ledger|);
    assert PickedBy(call) == PagePicked(call, 0, 0, |history|) == Matching(history, memo, |ledger|);
    assert history[..|ledger|] == ledger;
    AllPickedIsFold(history, |ledger|, account, memo, asset);
    BalanceAppend(ledger, last, account, memo, asset);
  }

  lemma {:induction false} AskedPrefix(ledger: seq<Tx>, history: seq<Tx>, memo: Memo, n: nat)
    requires ledger <= history && n <= |ledger|
    ensures Asked(ledger, memo, 0, n) == Asked(history, memo, 0, n)
  {
    if n == 0 {
    } else {
      AskedPrefix(ledger, history, memo, n - 1);
    }
  }

  lemma {:induction false} AllButTheLast(call: Call, k: nat, n: nat)
    requires n < |call.history| && call.failing == {k} && Asked(call.history, call.memo, 0, n) <= k
    ensures PagePicked(call, 0, 0, n) == Matching(call.history, call.memo, n)
    ensures Asked(call.history, call.memo, 0, n) == k && call.history[n].memo == call.memo ==>
              PagePicked(call, 0, 0, n + 1) == Matching(call.history, call.memo, n)
  {
    if n == 0 {
    } else {
      AskedGrows(call.history, call.memo, 0, n - 1, n);
      AllButTheLast(call, k, n - 1);
    }
  }

  // And the other way round: a client pays in, all of it is paid out, and the lookup of the first
  // transaction fails. A negative balance is read, and nobody to refund.
  lemma FirstLookupFails(account: Account, client: Account, other: Account, memo: Memo, asset: Asset, n: nat)
    requires n > 0 && client != account && other != account
    ensures var ledger := [Transfer(memo, client, account, asset, n), Transfer(memo, account, other, asset, n)];
            && Balance(ledger, account, memo, asset) == 0
            && Reading(ledger, account, memo, asset, {0}) == 0 - n
            && ReadDonors(ledger, account, memo, asset, {0}) == {}
            && Reading(ledger, account, memo, asset, {1}) == n
  {
    var paid, out := Transfer(memo, client, account, asset, n), Transfer(memo, account, other, asset, n);
    TwoEffects(client, account, asset, n, account);
    TwoEffects(account, other, asset, n, account);
    assert [paid][..0] == [] && [paid, out] == [paid] + [out];
    LastLookupFails([paid], out, account, memo, asset);
    OnlySecondPicked([paid, out], memo);
    OnePick([paid, out], 1, account, asset);
  }

  // A payment by itself.
  function Transfer(memo: Memo, from: Account, to: Account, asset: Asset, n: nat): Tx {
    Tx(memo, [Debited(from, asset, n), Credited(to, asset, n)])
  }

  lemma OnlySecondPicked(ledger: seq<Tx>, memo: Memo)
    requires |ledger| == 2 && ledger[0].memo == ledger[1].memo == memo
    ensures PickedBy(Still(ledger, memo, {0})) == [1]
  {
    var call := Still(ledger, memo, {0});
    assert Asked(ledger, memo, 0, 1) == 1;
    assert PagePicked(call, 0, 0, 1) == [];
    assert PagePicked(call, 0, 0, 2) == [1];
  }

  lemma OnePick(ledger: seq<Tx>, p: nat, account: Account, asset: Asset)
    requires p < |ledger|
    ensures SumPicked(ledger, [p], account, asset) == Net(ledger[p].effects, account, asset)
    ensures DonorsPicked(ledger, [p], account, asset) == TxDonors(ledger[p].effects, account, asset)
  {
    assert [p][..0] == [];
  }

  lemma TwoEffects(from: Account, to: Account, asset: Asset, n: nat, account: Account)
    requires from != to && account in {from, to}
    ensures var effects := [Debited(from, asset, n), Credited(to, asset, n)];
            && Net(effects, account, asset) == (if account == to then n else 0 - n)
            && (IsFunding(effects, account, asset) <==> account == to)
  {
    var effects, first := [Debited(from, asset, n), Credited(to, asset, n)], [Debited(from, asset, n)];
    assert effects[..1] == first && first[..0] == [];
    assert Net(first, account, asset) == (if account == from then 0 - n else 0) && !IsFunding(first, account, asset);
  }
}

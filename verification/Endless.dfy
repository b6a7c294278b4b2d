/** When reading a balance never ends: lookups that fail are not bounded in number here. */
module Endless {
  import opened Ledger
  import opened Horizon

  // A request for page number `page`, which starts at c, and the number of its first lookup.
  datatype Request = Request(page: nat, c: nat, lookup: nat)

  // A page needs no more lookups than it has transactions.
  function Window(call: Call, fails: nat -> bool, lookup: nat): Call {
    call.(failing := set f: nat | lookup <= f < lookup + call.limit && fails(f))
  }

  predicate Fits(call: Call, q: Request)
    requires call.Valid()
  {
    q.c <= call.Size(q.page)
  }

  function PageEndOf(call: Call, q: Request): (n: nat)
    requires call.Valid() && Fits(call, q)
    ensures q.c <= n <= |call.history| && n <= q.c + call.limit
  {
    call.PageEnd(q.page, q.c)
  }

  function NextRequest(call: Call, fails: nat -> bool, q: Request): (next: Request)
    requires call.Valid() && Fits(call, q)
    ensures Fits(call, next) && next.page == q.page + 1
  {
    var n := PageEndOf(call, q);
    SizesGrow(call, q.page, q.page + 1);
    Request(q.page + 1, Resume(Window(call, fails, q.lookup), q.lookup, q.c, n),
            q.lookup + Asked(call.history, call.memo, q.c, n))
  }

  function RequestAt(call: Call, fails: nat -> bool, k: nat): (q: Request)
    requires call.Valid()
    ensures q.page == k && Fits(call, q)
  {
    if k == 0 then Request(0, 0, 0) else NextRequest(call, fails, RequestAt(call, fails, k - 1))
  }

  // Another request follows.
  predicate Full(call: Call, q: Request)
    requires call.Valid() && Fits(call, q)
  {
    PageEndOf(call, q) == q.c + call.limit
  }

  // The page is full of this reservation's transactions, and every lookup fails.
  predicate Stuck(call: Call, fails: nat -> bool, q: Request)
    requires call.Valid() && Fits(call, q)
  {
    Full(call, q) && AllFail(call.history, call.memo, fails, q.lookup, q.c, q.c + call.limit)
  }

  // The transactions from c up to n are all this reservation's, and their lookups all fail.
  predicate AllFail(history: seq<Tx>, memo: Memo, fails: nat -> bool, lookup: nat, c: nat, n: nat)
    requires n <= |history|
  {
    forall p | c <= p < n :: history[p].memo == memo && fails(lookup + (p - c))
  }

  predicate FullAt(call: Call, fails: nat -> bool, k: nat)
    requires call.Valid()
  {
    Full(call, RequestAt(call, fails, k))
  }

  predicate StuckAt(call: Call, fails: nat -> bool, k: nat)
    requires call.Valid()
  {
    Stuck(call, fails, RequestAt(call, fails, k))
  }

  function CursorAt(call: Call, fails: nat -> bool, k: nat): nat
    requires call.Valid()
  {
    RequestAt(call, fails, k).c
  }

  // The cursor does not move exactly then.
  lemma StuckIff(call: Call, fails: nat -> bool, q: Request)
    requires call.Valid() && Fits(call, q) && Full(call, q)
    ensures q.c <= NextRequest(call, fails, q).c
    ensures NextRequest(call, fails, q).c == q.c <==> Stuck(call, fails, q)
  {
    var window, n := Window(call, fails, q.lookup), PageEndOf(call, q);
    AllFailIff(window, fails, q.lookup, q.c, n);
    if Resume(window, q.lookup, q.c, n) == q.c {
      forall p | q.c <= p < n
        ensures Fails(window, q.lookup, q.c, p)
      {
        NothingResumed(window, q.lookup, q.c, n, p);
      }
    } else {
      SomethingResumed(window, q.lookup, q.c, n);
    }
  }

  lemma StuckAtIff(call: Call, fails: nat -> bool, k: nat)
    requires call.Valid() && FullAt(call, fails, k)
    ensures CursorAt(call, fails, k) <= CursorAt(call, fails, k + 1)
    ensures CursorAt(call, fails, k + 1) == CursorAt(call, fails, k) <==> StuckAt(call, fails, k)
  {
    StuckIff(call, fails, RequestAt(call, fails, k));
  }

  lemma {:induction false} AllFailIff(window: Call, fails: nat -> bool, lookup: nat, c: nat, n: nat)
    requires c <= n <= |window.history| && n - c <= window.limit
    requires window == Window(window, fails, lookup)
    ensures (forall p | c <= p < n :: Fails(window, lookup, c, p)) <==>
              AllFail(window.history, window.memo, fails, lookup, c, n)
    ensures (forall p | c <= p < n :: Fails(window, lookup, c, p)) ==>
              Asked(window.history, window.memo, c, n) == n - c
    ensures Asked(window.history, window.memo, c, n) <= n - c
  {
    if n == c {
    } else {
      AllFailIff(window, fails, lookup, c, n - 1);
      var asked := Asked(window.history, window.memo, c, n - 1);
      assert lookup + asked in window.failing <==> fails(lookup + asked);
      OneMoreFails(window, fails, lookup, c, n);
    }
  }

  lemma OneMoreFails(window: Call, fails: nat -> bool, lookup: nat, c: nat, n: nat)
    requires c < n <= |window.history|
    requires var asked := Asked(window.history, window.memo, c, n - 1);
             asked <= n - 1 - c && (lookup + asked in window.failing <==> fails(lookup + asked))
    requires (forall p | c <= p < n - 1 :: Fails(window, lookup, c, p)) <==>
               AllFail(window.history, window.memo, fails, lookup, c, n - 1)
    requires (forall p | c <= p < n - 1 :: Fails(window, lookup, c, p)) ==>
               Asked(window.history, window.memo, c, n - 1) == n - 1 - c
    ensures (forall p | c <= p < n :: Fails(window, lookup, c, p)) <==>
              AllFail(window.history, window.memo, fails, lookup, c, n)
    ensures (forall p | c <= p < n :: Fails(window, lookup, c, p)) ==>
              Asked(window.history, window.memo, c, n) == n - c
  {
    if forall p | c <= p < n :: Fails(window, lookup, c, p) {
      assert Fails(window, lookup, c, n - 1);
      forall p | c <= p < n
        ensures window.history[p].memo == window.memo && fails(lookup + (p - c))
      {
        assert p < n - 1 ==> Fails(window, lookup, c, p);
      }
    }
    if AllFail(window.history, window.memo, fails, lookup, c, n) {
      assert window.history[n - 1].memo == window.memo && fails(lookup + (n - 1 - c));
      forall p | c <= p < n
        ensures Fails(window, lookup, c, p)
      {
        assert p < n - 1 ==> Fails(window, lookup, c, p);
      }
    }
  }

  lemma {:induction false} SomethingResumed(window: Call, lookup: nat, c: nat, n: nat)
    requires c <= n <= |window.history| && Resume(window, lookup, c, n) > c
    ensures exists p :: c <= p < n && !Fails(window, lookup, c, p)
  {
    if Fails(window, lookup, c, n - 1) {
      SomethingResumed(window, lookup, c, n - 1);
      var p :| c <= p < n - 1 && !Fails(window, lookup, c, p);
    } else {
      assert c <= n - 1 < n;
    }
  }

  // The loop never ends if and only if every page is full up to some request, and from there on every
  // page is full of this reservation's transactions whose lookups all fail.
  lemma NeverEndsIff(call: Call, fails: nat -> bool)
    requires call.Valid()
    ensures AllFull(call, fails) <==> exists k: nat :: StuckFrom(call, fails, k)
  {
    if AllFull(call, fails) {
      var k := ComesToRest(call, fails, 0);
      forall m: nat | m >= k
        ensures StuckAt(call, fails, m)
      {
        StuckAtIff(call, fails, m);
      }
      assert StuckFrom(call, fails, k);
    }
    if k: nat :| StuckFrom(call, fails, k) {
      forall m: nat
        ensures FullAt(call, fails, m)
      {
        assert m >= k ==> StuckAt(call, fails, m);
      }
    }
  }

  // Another request always follows.
  ghost predicate AllFull(call: Call, fails: nat -> bool)
    requires call.Valid()
  {
    forall k: nat :: FullAt(call, fails, k)
  }

  ghost predicate StuckFrom(call: Call, fails: nat -> bool, k: nat)
    requires call.Valid()
  {
    (forall m: nat | m < k :: FullAt(call, fails, m)) && (forall m: nat | m >= k :: StuckAt(call, fails, m))
  }

  // The cursor cannot move for ever.
  lemma {:induction false} ComesToRest(call: Call, fails: nat -> bool, from: nat) returns (k: nat)
    requires call.Valid() && AllFull(call, fails)
    ensures forall m: nat | m >= k :: CursorAt(call, fails, m) == CursorAt(call, fails, k)
    decreases |call.history| - CursorAt(call, fails, from)
  {
    if m: nat :| m >= from && CursorAt(call, fails, m) != CursorAt(call, fails, from) {
      CursorGrows(call, fails, from, m);
      k := ComesToRest(call, fails, m);
    } else {
      k := from;
    }
  }

  lemma {:induction false} CursorGrows(call: Call, fails: nat -> bool, k: nat, m: nat)
    requires call.Valid() && k <= m && AllFull(call, fails)
    ensures CursorAt(call, fails, k) <= CursorAt(call, fails, m)
    decreases m - k
  {
    if k == m {
    } else {
      CursorGrows(call, fails, k, m - 1);
      CursorMoves(call, fails, m);
    }
  }

  lemma CursorMoves(call: Call, fails: nat -> bool, m: nat)
    requires call.Valid() && m > 0 && AllFull(call, fails)
    ensures CursorAt(call, fails, m - 1) <= CursorAt(call, fails, m)
  {
    StuckAtIff(call, fails, m - 1);
  }

  // ---------- Finitely many failures ----------

  // If only finitely many lookups fail, the loop ends.
  lemma FiniteFailuresEnd(call: Call, fails: nat -> bool, bound: nat)
    requires call.Valid() && forall f: nat | f >= bound :: !fails(f)
    ensures exists k: nat :: !FullAt(call, fails, k)
  {
    if AllFull(call, fails) {
      NeverEndsIff(call, fails);
      var k: nat :| StuckFrom(call, fails, k);
      LookupsGrow(call, fails, k, bound);
      FailsAtOnce(call, fails, RequestAt(call, fails, k + bound));
    }
  }

  lemma FailsAtOnce(call: Call, fails: nat -> bool, q: Request)
    requires call.Valid() && Fits(call, q) && Stuck(call, fails, q)
    ensures fails(q.lookup)
  {
    assert call.history[q.c].memo == call.memo && fails(q.lookup + (q.c - q.c));
  }

  lemma {:induction false} LookupsGrow(call: Call, fails: nat -> bool, k: nat, d: nat)
    requires call.Valid() && StuckFrom(call, fails, k)
    ensures StuckAt(call, fails, k + d) && LookupAt(call, fails, k + d) >= d
  {
    if d == 0 {
    } else {
      LookupsGrow(call, fails, k, d - 1);
      LookupMoves(call, fails, k + d);
    }
  }

  function LookupAt(call: Call, fails: nat -> bool, k: nat): nat
    requires call.Valid()
  {
    RequestAt(call, fails, k).lookup
  }

  lemma LookupMoves(call: Call, fails: nat -> bool, m: nat)
    requires call.Valid() && m > 0 && StuckAt(call, fails, m - 1)
    ensures LookupAt(call, fails, m - 1) < LookupAt(call, fails, m)
  {
    StuckAsksAll(call, fails, RequestAt(call, fails, m - 1));
  }

  lemma StuckAsksAll(call: Call, fails: nat -> bool, q: Request)
    requires call.Valid() && Fits(call, q) && Stuck(call, fails, q)
    ensures NextRequest(call, fails, q).lookup == q.lookup + call.limit > q.lookup
  {
    AllAsked(call, q.c, PageEndOf(call, q));
  }

  lemma {:induction false} AllAsked(call: Call, c: nat, n: nat)
    requires c <= n <= |call.history| && forall p | c <= p < n :: call.history[p].memo == call.memo
    ensures Asked(call.history, call.memo, c, n) == n - c
  {
    if n == c {
    } else {
      AllAsked(call, c, n - 1);
    }
  }

  // And then its last request is the one at which the loop with a finite set of failures stops.
  lemma LastPageIsFirstNotFull(call: Call, fails: nat -> bool)
    requires call.Valid() && forall f: nat :: fails(f) <==> f in call.failing
    ensures FirstNotFull(call, fails, 0, LastPageFrom(call, 0, 0, 0))
  {
    LastPageAgrees(call, fails, RequestAt(call, fails, 0));
  }

  predicate FirstNotFull(call: Call, fails: nat -> bool, from: nat, last: nat)
    requires call.Valid()
  {
    from <= last && !FullAt(call, fails, last) && forall m: nat | from <= m < last :: FullAt(call, fails, m)
  }

  lemma {:induction false} LastPageAgrees(call: Call, fails: nat -> bool, q: Request)
    requires call.Valid() && forall f: nat :: fails(f) <==> f in call.failing
    requires q == RequestAt(call, fails, q.page)
    ensures FirstNotFull(call, fails, q.page, LastPageFrom(call, q.page, q.c, q.lookup))
    decreases |Pending(call.failing, q.lookup)|, |call.history| - q.c
  {
    var n := PageEndOf(call, q);
    if n - q.c < call.limit {
      OneNotFull(call, fails, q);
    } else {
      var next := NextRequest(call, fails, q);
      LastPageNext(call, fails, q);
      LastPageAgrees(call, fails, next);
      OneMoreFull(call, fails, q, LastPageFrom(call, next.page, next.c, next.lookup));
    }
  }

  lemma LastPageNext(call: Call, fails: nat -> bool, q: Request)
    requires call.Valid() && Fits(call, q) && Full(call, q) && forall f: nat :: fails(f) <==> f in call.failing
    ensures var next := NextRequest(call, fails, q);
            && LastPageFrom(call, q.page, q.c, q.lookup) == LastPageFrom(call, next.page, next.c, next.lookup)
            && |Pending(call.failing, next.lookup)| <= |Pending(call.failing, q.lookup)|
            && q.c <= next.c
            && (next.c > q.c || |Pending(call.failing, next.lookup)| < |Pending(call.failing, q.lookup)|)
  {
    var n := PageEndOf(call, q);
    NextPage(call, q.lookup, q.c, n);
    SameResume(call, fails, q.lookup, q.c, n);
  }

  lemma OneNotFull(call: Call, fails: nat -> bool, q: Request)
    requires call.Valid() && q == RequestAt(call, fails, q.page) && !Full(call, q)
    ensures FirstNotFull(call, fails, q.page, LastPageFrom(call, q.page, q.c, q.lookup))
  {
  }

  lemma OneMoreFull(call: Call, fails: nat -> bool, q: Request, last: nat)
    requires call.Valid() && q == RequestAt(call, fails, q.page) && Full(call, q)
    requires FirstNotFull(call, fails, q.page + 1, last)
    ensures FirstNotFull(call, fails, q.page, last)
  {
    assert FullAt(call, fails, q.page);
  }

  lemma {:induction false} SameResume(call: Call, fails: nat -> bool, lookup: nat, c: nat, n: nat)
    requires c <= n <= |call.history| && n - c <= call.limit && forall f: nat :: fails(f) <==> f in call.failing
    ensures Resume(Window(call, fails, lookup), lookup, c, n) == Resume(call, lookup, c, n)
  {
    if n == c {
    } else {
      SameResume(call, fails, lookup, c, n - 1);
      AskedAtMost(call, c, n - 1);
      var f := lookup + Asked(call.history, call.memo, c, n - 1);
      assert f in Window(call, fails, lookup).failing <==> f in call.failing;
    }
  }

  lemma {:induction false} AskedAtMost(call: Call, c: nat, n: nat)
    requires c <= n <= |call.history|
    ensures Asked(call.history, call.memo, c, n) <= n - c
  {
    if n == c {
    } else {
      AskedAtMost(call, c, n - 1);
    }
  }

  // ---------- An endless read ----------

  // The first page is full of this reservation's transactions, and their effects can never be looked
  // up: it is requested again and again.
  lemma {:induction false} AlwaysFailing(call: Call, fails: nat -> bool, k: nat)
    requires call.Valid() && call.limit <= call.Size(0) && forall f: nat :: fails(f)
    requires forall p | 0 <= p < call.limit :: call.history[p].memo == call.memo
    ensures FullAt(call, fails, k) && RequestAt(call, fails, k).c == 0
  {
    if k == 0 {
    } else {
      AlwaysFailing(call, fails, k - 1);
      StuckAtStart(call, fails, RequestAt(call, fails, k - 1));
    }
  }

  lemma StuckAtStart(call: Call, fails: nat -> bool, q: Request)
    requires call.Valid() && call.limit <= call.Size(0) && forall f: nat :: fails(f)
    requires forall p | 0 <= p < call.limit :: call.history[p].memo == call.memo
    requires Fits(call, q) && q.c == 0
    ensures Full(call, q) && NextRequest(call, fails, q).c == 0 && Full(call, NextRequest(call, fails, q))
  {
    SizesGrow(call, 0, q.page);
    SizesGrow(call, 0, q.page + 1);
    StuckIff(call, fails, q);
  }
}

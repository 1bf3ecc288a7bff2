/** The expense hook: the ledger kept most recent first by `normalize`,
    creation of a stored transaction from a draft, removal by id, and the
    paid / received / net totals of the filtered view. */
module Ledger {
  import opened Types

  // ---------------------------------------------------------------------
  // Filtering
  // ---------------------------------------------------------------------

  /** The callbacks the hook hands to `Array.prototype.filter`: keep the
      transactions whose id differs from a given one (removal), or whose
      type is a given one (the totals); the third, same-date, is used only
      to state that the sort is stable. */
  datatype Selector = OtherIdThan(id: string) | OfKind(kind: TransactionType) | DatedAt(date: int)

  predicate Selects(sel: Selector, t: Transaction)
  {
    match sel
    case OtherIdThan(id) => t.id != id
    case OfKind(k) => t.kind == k
    case DatedAt(d) => t.date == d
  }

  /** The transactions of `s` that `sel` keeps, in their original order. */
  function Filter(s: seq<Transaction>, sel: Selector): (r: seq<Transaction>)
    ensures |r| <= |s|
  {
    if s == [] then []
    else (if Selects(sel, s[0]) then [s[0]] else []) + Filter(s[1..], sel)
  }

  /** The filter keeps exactly the selected transactions. */
  lemma {:induction false} FilterMembers(s: seq<Transaction>, sel: Selector, x: Transaction)
    ensures x in Filter(s, sel) <==> x in s && Selects(sel, x)
  {
    if s != [] {
      FilterMembers(s[1..], sel, x);
      assert x in s <==> x == s[0] || x in s[1..];
    }
  }

  /** A non-empty sequence is its front followed by its last element. */
  lemma LastSplit(s: seq<Transaction>)
    requires s != []
    ensures s == s[..|s| - 1] + [s[|s| - 1]]
  {
  }

  /** Everything the filter keeps is selected. */
  lemma {:induction false} FilterSelected(s: seq<Transaction>, sel: Selector)
    ensures forall x :: x in Filter(s, sel) ==> Selects(sel, x)
  {
    if s != [] {
      FilterSelected(s[1..], sel);
    }
  }

  /** Filtering a sequence with a known head. */
  lemma FilterCons(x: Transaction, s: seq<Transaction>, sel: Selector)
    ensures Filter([x] + s, sel) == (if Selects(sel, x) then [x] else []) + Filter(s, sel)
  {
    assert ([x] + s)[0] == x;
    assert ([x] + s)[1..] == s;
  }

  /** Filtering distributes over concatenation, so the kept transactions
      keep their relative order. */
  lemma {:induction false} FilterAppend(a: seq<Transaction>, b: seq<Transaction>, sel: Selector)
    ensures Filter(a + b, sel) == Filter(a, sel) + Filter(b, sel)
  {
    if a == [] {
      assert a + b == b;
    } else {
      assert a + b == [a[0]] + (a[1..] + b);
      FilterCons(a[0], a[1..] + b, sel);
      FilterAppend(a[1..], b, sel);
      FilterCons(a[0], a[1..], sel);
      assert a == [a[0]] + a[1..];
    }
  }

  /** Filtering a sequence with a known last element. */
  lemma FilterSnoc(s: seq<Transaction>, x: Transaction, sel: Selector)
    ensures Filter(s + [x], sel) == Filter(s, sel) + (if Selects(sel, x) then [x] else [])
  {
    FilterAppend(s, [x], sel);
    FilterCons(x, [], sel);
    assert [x] + [] == [x];
  }

  /** The filter keeps every copy of a kept transaction and no copy of a
      dropped one. */
  lemma {:induction false} FilterCount(s: seq<Transaction>, sel: Selector, x: Transaction)
    ensures multiset(Filter(s, sel))[x] == if Selects(sel, x) then multiset(s)[x] else 0
  {
    if s != [] {
      assert s == [s[0]] + s[1..];
      FilterCount(s[1..], sel, x);
    }
  }

  /** A filter that keeps every transaction returns its input. */
  lemma {:induction false} FilterKeepsAll(s: seq<Transaction>, sel: Selector)
    requires forall x :: x in s ==> Selects(sel, x)
    ensures Filter(s, sel) == s
  {
    if s != [] {
      FilterKeepsAll(s[1..], sel);
      FilterCons(s[0], s[1..], sel);
      assert s == [s[0]] + s[1..];
    }
  }

  // ---------------------------------------------------------------------
  // Date order
  // ---------------------------------------------------------------------

  /** Most recent first: no transaction is dated after one before it. */
  ghost predicate DescendingByDate(s: seq<Transaction>)
  {
    forall i, j :: 0 <= i < j < |s| ==> s[i].date >= s[j].date
  }

  /** The same order stated for neighbours only, the form the inductive
      proofs below work with. */
  ghost predicate NeighboursDescending(s: seq<Transaction>)
  {
    |s| <= 1 || (s[0].date >= s[1].date && NeighboursDescending(s[1..]))
  }

  /** Ordering neighbours orders the whole ledger, and conversely. */
  lemma {:induction false} NeighboursDescendingIff(s: seq<Transaction>)
    ensures NeighboursDescending(s) <==> DescendingByDate(s)
  {
    if |s| > 1 {
      var rest := s[1..];
      NeighboursDescendingIff(rest);
      if NeighboursDescending(s) {
        forall i, j | 0 <= i < j < |s| ensures s[i].date >= s[j].date {
          assert s[j] == rest[j - 1];
          if i > 0 {
            assert s[i] == rest[i - 1];
          } else if j > 1 {
            assert s[1] == rest[0];
          }
        }
      }
      if DescendingByDate(s) {
        forall i, j | 0 <= i < j < |rest| ensures rest[i].date >= rest[j].date {
          assert rest[i] == s[i + 1] && rest[j] == s[j + 1];
        }
      }
    }
  }

  /** The head of a most-recent-first ledger is dated no earlier than any
      of its transactions. */
  lemma {:induction false} HeadIsLatest(s: seq<Transaction>, x: Transaction)
    requires NeighboursDescending(s)
    requires x in s
    ensures x.date <= s[0].date
  {
    if x != s[0] {
      assert x in s[1..];
      HeadIsLatest(s[1..], x);
    }
  }

  // ---------------------------------------------------------------------
  // normalize
  // ---------------------------------------------------------------------

  /** Places `t` into the most-recent-first `s` after every transaction
      dated at or after it, which is where a stable sort puts an element
      that comes after all of `s` in its input. */
  function InsertByDate(t: Transaction, s: seq<Transaction>): (r: seq<Transaction>)
    ensures |r| == |s| + 1
    ensures r[0] == t || (s != [] && r[0] == s[0])
  {
    if s == [] || s[0].date < t.date then [t] + s
    else [s[0]] + InsertByDate(t, s[1..])
  }

  /** Inserting adds exactly `t`. */
  lemma {:induction false} InsertPermutes(t: Transaction, s: seq<Transaction>)
    ensures multiset(InsertByDate(t, s)) == multiset(s) + multiset{t}
  {
    if s != [] && s[0].date >= t.date {
      InsertPermutes(t, s[1..]);
      assert s == [s[0]] + s[1..];
    }
  }

  lemma {:induction false} InsertKeepsDescending(t: Transaction, s: seq<Transaction>)
    requires NeighboursDescending(s)
    ensures NeighboursDescending(InsertByDate(t, s))
  {
    var r := InsertByDate(t, s);
    if s == [] || s[0].date < t.date {
      assert r[1..] == s;
    } else {
      InsertKeepsDescending(t, s[1..]);
      assert r[1..] == InsertByDate(t, s[1..]);
    }
  }

  /** Inserting `t` at a position `j` with nothing dated before `t` in
      front of it and only earlier-dated transactions from it on is what
      InsertByDate does. */
  lemma {:induction false} InsertAt(t: Transaction, s: seq<Transaction>, j: nat)
    requires j <= |s|
    requires forall k :: 0 <= k < j ==> s[k].date >= t.date
    requires forall k :: j <= k < |s| ==> s[k].date < t.date
    ensures InsertByDate(t, s) == s[..j] + [t] + s[j..]
  {
    if j > 0 {
      InsertAt(t, s[1..], j - 1);
      assert s[1..][..j - 1] == s[1..j];
      assert s[1..][j - 1..] == s[j..];
      assert s[..j] == [s[0]] + s[1..j];
    }
  }

  /** The stable sort by descending date that `normalize` performs. */
  function SortByDate(s: seq<Transaction>): (r: seq<Transaction>)
    ensures |r| == |s|
  {
    if s == [] then []
    else InsertByDate(s[|s| - 1], SortByDate(s[..|s| - 1]))
  }

  /** Sorting one more transaction is inserting it into the sorted rest. */
  lemma SortSnoc(s: seq<Transaction>, x: Transaction)
    ensures SortByDate(s + [x]) == InsertByDate(x, SortByDate(s))
  {
    assert (s + [x])[..|s|] == s;
  }

  /** The sort's output is most recent first. */
  lemma {:induction false} SortDescends(s: seq<Transaction>)
    ensures NeighboursDescending(SortByDate(s))
  {
    if s != [] {
      var n := |s| - 1;
      SortDescends(s[..n]);
      InsertKeepsDescending(s[n], SortByDate(s[..n]));
    }
  }

  /** `normalize` returns the ledger most recent first. */
  lemma SortByDateDescending(s: seq<Transaction>)
    ensures DescendingByDate(SortByDate(s))
  {
    SortDescends(s);
    NeighboursDescendingIff(SortByDate(s));
  }

  /** `normalize` neither loses nor adds a transaction. */
  lemma {:induction false} SortByDatePermutes(s: seq<Transaction>)
    ensures multiset(SortByDate(s)) == multiset(s)
  {
    if s != [] {
      var n := |s| - 1;
      var q, x := s[..n], s[n];
      LastSplit(s);
      SortSnoc(q, x);
      SortByDatePermutes(q);
      InsertPermutes(x, SortByDate(q));
    }
  }

  /** An array that holds `p` with `t` put in at `j` holds InsertByDate(t, p)
      when `t` is dated no later than everything before `j` and later than
      everything from `j` on. */
  lemma ShiftedIsInserted(b: seq<Transaction>, p: seq<Transaction>, t: Transaction, j: nat)
    requires j <= |p| && |b| == |p| + 1
    requires forall k :: 0 <= k < j ==> b[k] == p[k] && p[k].date >= t.date
    requires b[j] == t
    requires forall k :: j < k < |b| ==> b[k] == p[k - 1]
    requires forall k :: j <= k < |p| ==> p[k].date < t.date
    ensures b == InsertByDate(t, p)
  {
    InsertAt(t, p, j);
    var q := p[..j] + [t] + p[j..];
    forall k | 0 <= k < |b| ensures b[k] == q[k] {
      if k > j { assert q[k] == p[k - 1]; }
    }
  }

  /** Shifts the transactions of the sorted prefix `a[..i]` that are
      dated before `t` one place right, and returns the gap this leaves. */
  method ShiftLater(a: array<Transaction>, i: nat, t: Transaction) returns (j: nat)
    requires i < a.Length
    modifies a
    ensures j <= i
    ensures forall k :: 0 <= k < j ==> a[k] == old(a[k])
    ensures forall k :: j < k <= i ==> a[k] == old(a[k - 1])
    ensures forall k :: i < k < a.Length ==> a[k] == old(a[k])
    ensures forall k :: j <= k < i ==> old(a[k]).date < t.date
    ensures j == 0 || old(a[j - 1]).date >= t.date
  {
    j := i;
    while j > 0 && a[j - 1].date < t.date
      invariant 0 <= j <= i
      invariant forall k :: 0 <= k < j ==> a[k] == old(a[k])
      invariant forall k :: j < k <= i ==> a[k] == old(a[k - 1])
      invariant forall k :: i < k < a.Length ==> a[k] == old(a[k])
      invariant forall k :: j <= k < i ==> old(a[k]).date < t.date
    {
      a[j] := a[j - 1];
      j := j - 1;
    }
  }

  /** One step of the in-place sort: shifts the earlier-dated tail of the
      sorted prefix `a[..i]` one place right and drops `a[i]` into the gap. */
  method InsertInPlace(a: array<Transaction>, i: nat)
    requires i < a.Length
    requires DescendingByDate(a[..i])
    modifies a
    ensures a[..i + 1] == InsertByDate(old(a[i]), old(a[..i]))
    ensures forall k :: i < k < a.Length ==> a[k] == old(a[k])
  {
    var t := a[i];
    ghost var p := a[..i];
    var j := ShiftLater(a, i, t);
    a[j] := t;
    assert forall k :: 0 <= k < j ==> p[k].date >= p[j - 1].date >= t.date;
    ShiftedIsInserted(a[..i + 1], p, t, j);
  }

  /** `normalize`: copies the ledger into a fresh array and sorts the copy
      by descending date, leaving the caller's sequence as it was. */
  method Normalize(s: seq<Transaction>) returns (r: seq<Transaction>)
    ensures r == SortByDate(s)
  {
    var n := |s|;
    var a := new Transaction[n](k requires 0 <= k < n => s[k]);
    var i := 0;
    while i < n
      invariant 0 <= i <= n == a.Length
      invariant a[..i] == SortByDate(s[..i])
      invariant forall k :: i <= k < n ==> a[k] == s[k]
    {
      SortByDateDescending(s[..i]);
      InsertInPlace(a, i);
      assert s[..i + 1] == s[..i] + [s[i]];
      SortSnoc(s[..i], s[i]);
      i := i + 1;
    }
    assert s[..n] == s;
    r := a[..];
  }

  /** Sorting a ledger that is already most recent first changes nothing,
      so `normalize` is idempotent. */
  lemma {:induction false} SortKeepsDescending(s: seq<Transaction>)
    requires DescendingByDate(s)
    ensures SortByDate(s) == s
  {
    if s != [] {
      var n := |s| - 1;
      var q := s[..n];
      assert DescendingByDate(q);
      SortKeepsDescending(q);
      InsertAt(s[n], q, n);
      assert q[..n] == q && q[n..] == [];
      LastSplit(s);
    }
  }

  /** Normalizing twice is normalizing once. */
  lemma SortIdempotent(s: seq<Transaction>)
    ensures SortByDate(SortByDate(s)) == SortByDate(s)
  {
    SortByDateDescending(s);
    SortKeepsDescending(SortByDate(s));
  }

  /** Filtering after inserting is inserting into the filtered ledger, or
      not inserting at all when the filter drops the new transaction. */
  lemma {:induction false} FilterInsert(t: Transaction, s: seq<Transaction>, sel: Selector)
    requires NeighboursDescending(s)
    ensures Filter(InsertByDate(t, s), sel)
         == if Selects(sel, t) then InsertByDate(t, Filter(s, sel)) else Filter(s, sel)
  {
    if s == [] || s[0].date < t.date {
      FilterInsertInFront(t, s, sel);
    } else {
      FilterInsert(t, s[1..], sel);
      assert s == [s[0]] + s[1..];
      if Selects(sel, t) {
        FilterInsertBehindKept(t, s[0], s[1..], sel);
      } else {
        FilterInsertBehindDropped(t, s[0], s[1..], sel);
      }
    }
  }

  /** FilterInsert when `t` goes in front of everything. */
  lemma FilterInsertInFront(t: Transaction, s: seq<Transaction>, sel: Selector)
    requires NeighboursDescending(s)
    requires s == [] || s[0].date < t.date
    ensures Filter(InsertByDate(t, s), sel)
         == if Selects(sel, t) then InsertByDate(t, Filter(s, sel)) else Filter(s, sel)
  {
    var fs := Filter(s, sel);
    FilterCons(t, s, sel);
    if fs != [] {
      FilterMembers(s, sel, fs[0]);
      HeadIsLatest(s, fs[0]);
    }
  }

  /** Inserting behind a head dated at or after `t` keeps that head. */
  lemma InsertBehindHead(t: Transaction, h: Transaction, s: seq<Transaction>)
    requires h.date >= t.date
    ensures InsertByDate(t, [h] + s) == [h] + InsertByDate(t, s)
  {
    assert ([h] + s)[0] == h;
    assert ([h] + s)[1..] == s;
  }

  /** FilterInsert when the filter keeps `t` and `t` goes behind the head
      `h`, given that it holds for the tail. */
  lemma FilterInsertBehindKept(t: Transaction, h: Transaction, rest: seq<Transaction>, sel: Selector)
    requires h.date >= t.date && Selects(sel, t)
    requires Filter(InsertByDate(t, rest), sel) == InsertByDate(t, Filter(rest, sel))
    ensures Filter(InsertByDate(t, [h] + rest), sel) == InsertByDate(t, Filter([h] + rest, sel))
  {
    InsertBehindHead(t, h, rest);
    FilterCons(h, InsertByDate(t, rest), sel);
    FilterCons(h, rest, sel);
    if Selects(sel, h) {
      InsertBehindHead(t, h, Filter(rest, sel));
    } else {
      assert [] + Filter(rest, sel) == Filter(rest, sel);
      assert [] + InsertByDate(t, Filter(rest, sel)) == InsertByDate(t, Filter(rest, sel));
    }
  }

  /** FilterInsert when the filter drops `t` and `t` goes behind the head
      `h`, given that it holds for the tail. */
  lemma FilterInsertBehindDropped(t: Transaction, h: Transaction, rest: seq<Transaction>, sel: Selector)
    requires h.date >= t.date && !Selects(sel, t)
    requires Filter(InsertByDate(t, rest), sel) == Filter(rest, sel)
    ensures Filter(InsertByDate(t, [h] + rest), sel) == Filter([h] + rest, sel)
  {
    InsertBehindHead(t, h, rest);
    FilterCons(h, InsertByDate(t, rest), sel);
    FilterCons(h, rest, sel);
  }

  /** Sorting commutes with every filter: the sort is stable, and filtering
      a sorted ledger leaves it sorted. */
  lemma {:induction false} SortCommutesWithFilter(s: seq<Transaction>, sel: Selector)
    ensures Filter(SortByDate(s), sel) == SortByDate(Filter(s, sel))
  {
    if s != [] {
      var n := |s| - 1;
      var q, x := s[..n], s[n];
      SortCommutesWithFilter(q, sel);
      SortDescends(q);
      FilterInsert(x, SortByDate(q), sel);
      LastSplit(s);
      FilterSnoc(q, x, sel);
      if Selects(sel, x) {
        SortSnoc(Filter(q, sel), x);
      } else {
        assert Filter(q, sel) + [] == Filter(q, sel);
      }
    }
  }

  /** Stability: transactions sharing a date keep their input order. */
  lemma SortIsStable(s: seq<Transaction>, d: int)
    ensures Filter(SortByDate(s), DatedAt(d)) == Filter(s, DatedAt(d))
  {
    var same := Filter(s, DatedAt(d));
    SortCommutesWithFilter(s, DatedAt(d));
    forall t | t in same ensures t.date == d {
      FilterMembers(s, DatedAt(d), t);
    }
    SortKeepsDescending(same);
  }

  /** Filtering a most-recent-first ledger leaves it most recent first. */
  lemma FilterKeepsDescending(s: seq<Transaction>, sel: Selector)
    requires DescendingByDate(s)
    ensures DescendingByDate(Filter(s, sel))
  {
    SortKeepsDescending(s);
    SortCommutesWithFilter(s, sel);
    SortByDateDescending(Filter(s, sel));
  }

  // ---------------------------------------------------------------------
  // createTransaction, removal
  // ---------------------------------------------------------------------

  /** The draft a stored transaction was created from: every field but the
      id, with the stored date read back. */
  function DraftOf(t: Transaction): Draft
  {
    Draft(t.kind, t.amount, t.category, t.description, t.date, t.account, t.project, t.notes)
  }

  /** `createTransaction`: copies the draft and adds the id "txn-" followed
      by the generated `suffix`. The date is stored as an ISO string that
      reads back as the draft's instant, so the model keeps the instant. */
  function CreateTransaction(draft: Draft, suffix: string): (t: Transaction)
    ensures DraftOf(t) == draft
    ensures |t.id| == 4 + |suffix| && t.id[..4] == "txn-" && t.id[4..] == suffix
  {
    Transaction("txn-" + suffix, draft.kind, draft.amount, draft.category,
                draft.description, draft.date, draft.account, draft.project, draft.notes)
  }

  /** Distinct suffixes give distinct ids, whatever the drafts. */
  lemma CreatedIdsDiffer(d1: Draft, d2: Draft, s1: string, s2: string)
    requires s1 != s2
    ensures CreateTransaction(d1, s1).id != CreateTransaction(d2, s2).id
  {
  }

  /** `removeTransaction`'s filter: keeps every transaction whose id is not `id`. */
  function RemoveById(s: seq<Transaction>, id: string): (r: seq<Transaction>)
    ensures |r| <= |s|
    ensures forall t :: t in r ==> t.id != id
  {
    FilterSelected(s, OtherIdThan(id));
    Filter(s, OtherIdThan(id))
  }

  /** After removal a transaction is left exactly when it was there and has
      another id. */
  lemma RemoveMembers(s: seq<Transaction>, id: string, t: Transaction)
    ensures t in RemoveById(s, id) <==> t in s && t.id != id
  {
    FilterMembers(s, OtherIdThan(id), t);
  }

  /** Removal drops every copy of a transaction with that id and keeps
      every copy of all the others. */
  lemma RemoveCounts(s: seq<Transaction>, id: string, t: Transaction)
    ensures multiset(RemoveById(s, id))[t] == if t.id == id then 0 else multiset(s)[t]
  {
    FilterCount(s, OtherIdThan(id), t);
  }

  /** Removal works transaction by transaction, so the survivors keep their
      relative order. */
  lemma RemoveKeepsOrder(a: seq<Transaction>, b: seq<Transaction>, id: string)
    ensures RemoveById(a + b, id) == RemoveById(a, id) + RemoveById(b, id)
  {
    FilterAppend(a, b, OtherIdThan(id));
  }

  /** Removing an id nobody has changes nothing. */
  lemma RemoveAbsent(s: seq<Transaction>, id: string)
    requires forall t :: t in s ==> t.id != id
    ensures RemoveById(s, id) == s
  {
    FilterKeepsAll(s, OtherIdThan(id));
  }

  /** Removing the same id twice is removing it once. */
  lemma RemoveIdempotent(s: seq<Transaction>, id: string)
    ensures RemoveById(RemoveById(s, id), id) == RemoveById(s, id)
  {
    forall t | t in RemoveById(s, id) ensures t.id != id {
      RemoveMembers(s, id, t);
    }
    RemoveAbsent(RemoveById(s, id), id);
  }

  /** Removal keeps the ledger most recent first. */
  lemma RemoveKeepsDescending(s: seq<Transaction>, id: string)
    requires DescendingByDate(s)
    ensures DescendingByDate(RemoveById(s, id))
  {
    FilterKeepsDescending(s, OtherIdThan(id));
  }

  /** Adding a transaction whose id is fresh and then removing that id gives
      back a most-recent-first ledger unchanged. */
  lemma RemoveUndoesAdd(s: seq<Transaction>, t: Transaction)
    requires DescendingByDate(s)
    requires forall u :: u in s ==> u.id != t.id
    ensures RemoveById(SortByDate([t] + s), t.id) == s
  {
    var sel := OtherIdThan(t.id);
    SortCommutesWithFilter([t] + s, sel);
    FilterCons(t, s, sel);
    FilterKeepsAll(s, sel);
    assert [] + s == s;
    SortKeepsDescending(s);
  }

  // ---------------------------------------------------------------------
  // totals
  // ---------------------------------------------------------------------

  /** `reduce((sum, t) => sum + t.amount, 0)`: a left fold from 0. */
  function SumAmounts(s: seq<Transaction>): (r: real)
    ensures s == [] ==> r == 0.0
    ensures (forall t :: t in s ==> t.amount >= 0.0) ==> r >= 0.0
  {
    if s == [] then 0.0 else SumAmounts(s[..|s| - 1]) + s[|s| - 1].amount
  }

  lemma SumSnoc(s: seq<Transaction>, x: Transaction)
    ensures SumAmounts(s + [x]) == SumAmounts(s) + x.amount
  {
    assert (s + [x])[..|s|] == s;
  }

  /** The sum of a concatenation is the sum of the sums. */
  lemma {:induction false} SumAppend(a: seq<Transaction>, b: seq<Transaction>)
    ensures SumAmounts(a + b) == SumAmounts(a) + SumAmounts(b)
  {
    if b == [] {
      assert a + b == a;
    } else {
      var n := |b| - 1;
      SumAppend(a, b[..n]);
      LastSplit(b);
      assert a + b == (a + b[..n]) + [b[n]];
      SumSnoc(a + b[..n], b[n]);
      SumSnoc(b[..n], b[n]);
    }
  }

  /** Taking the transaction at `k` out of a list takes its amount out of
      the sum. */
  lemma SumRemoveAt(b: seq<Transaction>, k: nat)
    requires k < |b|
    ensures SumAmounts(b) == SumAmounts(b[..k] + b[k + 1..]) + b[k].amount
  {
    var front, x, back := b[..k], b[k], b[k + 1..];
    assert b[..k + 1] == front + [x];
    assert b == b[..k + 1] + back;
    SumAppend(front + [x], back);
    SumSnoc(front, x);
    SumAppend(front, back);
  }

  /** Taking the transaction at `k` out of a list takes one copy of it out
      of the multiset. */
  lemma CountRemoveAt(b: seq<Transaction>, k: nat)
    requires k < |b|
    ensures multiset(b[..k] + b[k + 1..]) == multiset(b) - multiset{b[k]}
  {
    var front, x, back := b[..k], b[k], b[k + 1..];
    assert b == front + ([x] + back);
  }

  /** The order the amounts are added in does not change the sum. */
  lemma {:induction false} SumPermutation(a: seq<Transaction>, b: seq<Transaction>)
    requires multiset(a) == multiset(b)
    ensures SumAmounts(a) == SumAmounts(b)
    decreases |a|
  {
    if a != [] {
      var n := |a| - 1;
      var q, x := a[..n], a[n];
      LastSplit(a);
      assert multiset(q) == multiset(a) - multiset{x};
      assert x in multiset(b);
      var k :| 0 <= k < |b| && b[k] == x;
      SumRemoveAt(b, k);
      CountRemoveAt(b, k);
      SumPermutation(q, b[..k] + b[k + 1..]);
      SumSnoc(q, x);
    }
  }

  /** Every transaction is an expense or an income, so the two filtered
      sums add up to the sum over the whole list. */
  lemma {:induction false} SumSplitByType(s: seq<Transaction>)
    ensures SumAmounts(Filter(s, OfKind(Expense))) + SumAmounts(Filter(s, OfKind(Income)))
         == SumAmounts(s)
  {
    if s != [] {
      var n := |s| - 1;
      var q, x := s[..n], s[n];
      SumSplitByType(q);
      LastSplit(s);
      FilterSnoc(q, x, OfKind(Expense));
      FilterSnoc(q, x, OfKind(Income));
      SumSnoc(q, x);
      if x.kind == Expense {
        assert Filter(q, OfKind(Income)) + [] == Filter(q, OfKind(Income));
        SumSnoc(Filter(q, OfKind(Expense)), x);
      } else {
        assert Filter(q, OfKind(Expense)) + [] == Filter(q, OfKind(Expense));
        SumSnoc(Filter(q, OfKind(Income)), x);
      }
    }
  }

  datatype Totals = Totals(paid: real, received: real, net: real)

  /** The totals of the filtered list: `paid` sums the expenses, `received`
      the incomes, and `net` is what was received less what was paid. */
  function ComputeTotals(filtered: seq<Transaction>): (r: Totals)
    ensures r.paid == SumAmounts(Filter(filtered, OfKind(Expense)))
    ensures r.received == SumAmounts(Filter(filtered, OfKind(Income)))
    ensures r.net == r.received - r.paid
    ensures r.paid + r.received == SumAmounts(filtered)
    ensures filtered == [] ==> r == Totals(0.0, 0.0, 0.0)
  {
    SumSplitByType(filtered);
    var paid := SumAmounts(Filter(filtered, OfKind(Expense)));
    var received := SumAmounts(Filter(filtered, OfKind(Income)));
    Totals(paid, received, received - paid)
  }

  /** A list made only of expenses has received nothing, and its net is
      minus what was paid. */
  lemma TotalsOfExpensesOnly(s: seq<Transaction>)
    requires forall t :: t in s ==> t.kind == Expense
    ensures ComputeTotals(s) == Totals(SumAmounts(s), 0.0, -SumAmounts(s))
  {
    FilterKeepsAll(s, OfKind(Expense));
    if Filter(s, OfKind(Income)) != [] {
      var t := Filter(s, OfKind(Income))[0];
      FilterMembers(s, OfKind(Income), t);
    }
  }

  /** A list made only of incomes has paid nothing, and its net is what
      was received. */
  lemma TotalsOfIncomesOnly(s: seq<Transaction>)
    requires forall t :: t in s ==> t.kind == Income
    ensures ComputeTotals(s) == Totals(0.0, SumAmounts(s), SumAmounts(s))
  {
    FilterKeepsAll(s, OfKind(Income));
    if Filter(s, OfKind(Expense)) != [] {
      var t := Filter(s, OfKind(Expense))[0];
      FilterMembers(s, OfKind(Expense), t);
    }
  }

  /** Totals are additive: the totals of two lists put together are the
      sums of their totals. */
  lemma TotalsAppend(a: seq<Transaction>, b: seq<Transaction>)
    ensures ComputeTotals(a + b).paid == ComputeTotals(a).paid + ComputeTotals(b).paid
    ensures ComputeTotals(a + b).received == ComputeTotals(a).received + ComputeTotals(b).received
  {
    FilterAppend(a, b, OfKind(Expense));
    SumAppend(Filter(a, OfKind(Expense)), Filter(b, OfKind(Expense)));
    FilterAppend(a, b, OfKind(Income));
    SumAppend(Filter(a, OfKind(Income)), Filter(b, OfKind(Income)));
  }

  /** Filtering two lists holding the same transactions gives lists
      holding the same transactions. */
  lemma FilterPermutation(a: seq<Transaction>, b: seq<Transaction>, sel: Selector)
    requires multiset(a) == multiset(b)
    ensures multiset(Filter(a, sel)) == multiset(Filter(b, sel))
  {
    forall x ensures multiset(Filter(a, sel))[x] == multiset(Filter(b, sel))[x] {
      FilterCount(a, sel, x);
      FilterCount(b, sel, x);
    }
  }

  /** Totals do not depend on the order of the list, so normalizing the
      ledger never changes them. */
  lemma TotalsIgnoreOrder(a: seq<Transaction>, b: seq<Transaction>)
    requires multiset(a) == multiset(b)
    ensures ComputeTotals(a) == ComputeTotals(b)
  {
    FilterPermutation(a, b, OfKind(Expense));
    SumPermutation(Filter(a, OfKind(Expense)), Filter(b, OfKind(Expense)));
    FilterPermutation(a, b, OfKind(Income));
    SumPermutation(Filter(a, OfKind(Income)), Filter(b, OfKind(Income)));
  }

  // ---------------------------------------------------------------------
  // The hook's state
  // ---------------------------------------------------------------------

  /** The state `useExpenses` keeps: the ledger and the current filters. */
  class Expenses {
    var transactions: seq<Transaction>
    var filters: Filters

    /** Starts from the persisted ledger (or the seed) and the default
        filters, both supplied by the caller. */
    constructor(persisted: seq<Transaction>, defaults: Filters)
      ensures transactions == persisted && filters == defaults
    {
      transactions := persisted;
      filters := defaults;
    }

    /** `addTransaction`: puts the new transaction in front and normalizes. */
    method AddTransaction(draft: Draft, suffix: string)
      modifies this
      ensures transactions == SortByDate([CreateTransaction(draft, suffix)] + old(transactions))
      ensures DescendingByDate(transactions)
      ensures multiset(transactions) == multiset(old(transactions)) + multiset{CreateTransaction(draft, suffix)}
      ensures |transactions| == |old(transactions)| + 1
      ensures filters == old(filters)
    {
      var t := CreateTransaction(draft, suffix);
      var next := [t] + transactions;
      transactions := Normalize(next);
      SortByDateDescending(next);
      SortByDatePermutes(next);
    }

    /** `removeTransaction`: keeps the transactions with another id. */
    method RemoveTransaction(id: string)
      modifies this
      ensures transactions == RemoveById(old(transactions), id)
      ensures forall t :: t in transactions <==> t in old(transactions) && t.id != id
      ensures DescendingByDate(old(transactions)) ==> DescendingByDate(transactions)
      ensures filters == old(filters)
    {
      var before := transactions;
      transactions := RemoveById(before, id);
      forall t ensures t in transactions <==> t in before && t.id != id {
        RemoveMembers(before, id, t);
      }
      if DescendingByDate(before) {
        RemoveKeepsDescending(before, id);
      }
    }

    /** `updateFilters`: replaces the filters by the updater's result. */
    method UpdateFilters(updater: Filters -> Filters)
      modifies this
      ensures filters == updater(old(filters))
      ensures transactions == old(transactions)
    {
      filters := updater(filters);
    }
  }
}

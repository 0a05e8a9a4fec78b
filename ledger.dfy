/**
 * The records of the wallet's ledger and the whole-list transforms the
 * payment-method screen computes before every write: append on add, a map
 * that renames on update, a filter on delete, a map that adds funds, and a
 * find that looks up the name to log. Amounts are integers (cents).
 */
module Ledger {
  import opened Wrappers

  /** A payment method as the screen holds it in memory. */
  datatype PaymentMethod = PaymentMethod(id: int, name: string, funds: int)

  /**
   * A payment method as read back from the "paymentMethods" cell: a record
   * written before the `funds` field existed has none.
   */
  datatype StoredMethod = StoredMethod(id: int, name: string, funds: Option<int>)

  /** One entry of the transaction log; `methodName` is a copy of the name, not a link. */
  datatype Transaction = Transaction(id: int, methodName: string, amount: int, date: string)

  /** `method.id === currentMethodId`: a `null` current id matches no record. */
  predicate Matches(m: PaymentMethod, target: Option<int>) {
    target == Some(m.id)
  }

  predicate NoneMatch(ms: seq<PaymentMethod>, target: Option<int>) {
    forall i :: 0 <= i < |ms| ==> !Matches(ms[i], target)
  }

  predicate NonNegative(ms: seq<PaymentMethod>) {
    forall i :: 0 <= i < |ms| ==> ms[i].funds >= 0
  }

  predicate DistinctIds(ms: seq<PaymentMethod>) {
    forall i, j :: 0 <= i < j < |ms| ==> ms[i].id != ms[j].id
  }

  /** The list after "Add": a new record with the entered name and no funds at the end. */
  function Appended(ms: seq<PaymentMethod>, id: int, name: string): (r: seq<PaymentMethod>)
    ensures |r| == |ms| + 1
    ensures r[..|ms|] == ms
    ensures r[|ms|] == PaymentMethod(id, name, 0)
  {
    ms + [PaymentMethod(id, name, 0)]
  }

  /** The list after "Update": `map` renaming every record whose id is the target. */
  function Renamed(ms: seq<PaymentMethod>, target: Option<int>, name: string): (r: seq<PaymentMethod>)
    ensures |r| == |ms|
  {
    if ms == [] then []
    else
      var head := if Matches(ms[0], target) then ms[0].(name := name) else ms[0];
      [head] + Renamed(ms[1..], target, name)
  }

  /**
   * Renaming keeps every id and every balance in place, gives the matching
   * records the new name and leaves every other record as it was.
   */
  lemma {:induction false} RenamedSpec(ms: seq<PaymentMethod>, target: Option<int>, name: string)
    ensures var r := Renamed(ms, target, name);
      && (forall i :: 0 <= i < |ms| ==> r[i].id == ms[i].id && r[i].funds == ms[i].funds)
      && (forall i :: 0 <= i < |ms| && Matches(ms[i], target) ==> r[i].name == name)
      && (forall i :: 0 <= i < |ms| && !Matches(ms[i], target) ==> r[i] == ms[i])
  {
    if ms != [] {
      RenamedSpec(ms[1..], target, name);
    }
  }

  /** With no matching record (in particular with no target), renaming changes nothing. */
  lemma RenamedNoMatch(ms: seq<PaymentMethod>, target: Option<int>, name: string)
    requires NoneMatch(ms, target)
    ensures Renamed(ms, target, name) == ms
  {
    RenamedSpec(ms, target, name);
  }

  /** The list after "Add Funds": `map` adding `amount` to every record whose id is the target. */
  function Funded(ms: seq<PaymentMethod>, target: Option<int>, amount: int): (r: seq<PaymentMethod>)
    ensures |r| == |ms|
  {
    if ms == [] then []
    else
      var head := if Matches(ms[0], target) then ms[0].(funds := ms[0].funds + amount) else ms[0];
      [head] + Funded(ms[1..], target, amount)
  }

  /**
   * Adding funds keeps every id and every name in place, raises the
   * matching records by the amount and leaves every other record as it was.
   */
  lemma {:induction false} FundedSpec(ms: seq<PaymentMethod>, target: Option<int>, amount: int)
    ensures var r := Funded(ms, target, amount);
      && (forall i :: 0 <= i < |ms| ==> r[i].id == ms[i].id && r[i].name == ms[i].name)
      && (forall i :: 0 <= i < |ms| && Matches(ms[i], target) ==> r[i].funds == ms[i].funds + amount)
      && (forall i :: 0 <= i < |ms| && !Matches(ms[i], target) ==> r[i] == ms[i])
  {
    if ms != [] {
      FundedSpec(ms[1..], target, amount);
    }
  }

  /** With no matching record, adding funds changes nothing. */
  lemma FundedNoMatch(ms: seq<PaymentMethod>, target: Option<int>, amount: int)
    requires NoneMatch(ms, target)
    ensures Funded(ms, target, amount) == ms
  {
    FundedSpec(ms, target, amount);
  }

  /** The list after "Delete": `filter(method => method.id !== id)`. */
  function Removed(ms: seq<PaymentMethod>, id: int): (r: seq<PaymentMethod>)
    ensures |r| <= |ms|
  {
    if ms == [] then []
    else if ms[0].id != id then [ms[0]] + Removed(ms[1..], id)
    else Removed(ms[1..], id)
  }

  /** Deleting an id no record has changes nothing. */
  lemma {:induction false} RemovedAbsent(ms: seq<PaymentMethod>, id: int)
    requires forall i :: 0 <= i < |ms| ==> ms[i].id != id
    ensures Removed(ms, id) == ms
  {
    if ms != [] {
      RemovedAbsent(ms[1..], id);
      assert ms == [ms[0]] + ms[1..];
    }
  }

  /** Every record with a different id survives a delete as often as it occurred; no record with the id does. */
  lemma {:induction false} RemovedMultiplicity(ms: seq<PaymentMethod>, id: int, m: PaymentMethod)
    ensures multiset(Removed(ms, id))[m] == if m.id == id then 0 else multiset(ms)[m]
  {
    if ms != [] {
      RemovedMultiplicity(ms[1..], id, m);
      assert ms == [ms[0]] + ms[1..];
      assert multiset(ms) == multiset([ms[0]]) + multiset(ms[1..]);
      if ms[0].id != id {
        assert multiset(Removed(ms, id)) == multiset([ms[0]]) + multiset(Removed(ms[1..], id));
      }
    }
  }

  /** A record survives a delete exactly when it was there and has a different id. */
  lemma RemovedMembers(ms: seq<PaymentMethod>, id: int, m: PaymentMethod)
    ensures m in Removed(ms, id) <==> m in ms && m.id != id
  {
    RemovedMultiplicity(ms, id, m);
    assert m in Removed(ms, id) <==> multiset(Removed(ms, id))[m] > 0;
    assert m in ms <==> multiset(ms)[m] > 0;
  }

  /** `find(method => method.id === target)`: a matching record, if there is one. */
  function FindMatch(ms: seq<PaymentMethod>, target: Option<int>): (r: Option<PaymentMethod>)
    ensures r.None? <==> NoneMatch(ms, target)
    ensures r.Some? ==> r.value in ms && Matches(r.value, target)
  {
    if ms == [] then None
    else if Matches(ms[0], target) then Some(ms[0])
    else FindMatch(ms[1..], target)
  }

  /** The record `find` returns is the one at the first matching index. */
  lemma {:induction false} FindMatchIsFirst(ms: seq<PaymentMethod>, target: Option<int>)
    requires FindMatch(ms, target).Some?
    ensures exists i :: 0 <= i < |ms| && ms[i] == FindMatch(ms, target).value && NoneMatch(ms[..i], target)
  {
    if Matches(ms[0], target) {
      assert ms[..0] == [];
    } else {
      FindMatchIsFirst(ms[1..], target);
      var i :| 0 <= i < |ms[1..]| && ms[1..][i] == FindMatch(ms[1..], target).value && NoneMatch(ms[1..][..i], target);
      assert ms[..i + 1] == [ms[0]] + ms[1..][..i];
    }
  }

  /** The load-time rule `funds: method.funds ?? 0`, applied to every stored record. */
  function Normalised(stored: seq<StoredMethod>): (r: seq<PaymentMethod>)
    ensures |r| == |stored|
  {
    if stored == [] then []
    else
      var s := stored[0];
      [PaymentMethod(s.id, s.name, s.funds.GetOr(0))] + Normalised(stored[1..])
  }

  /** Loading keeps every id and name; a present balance is kept and a missing one becomes 0. */
  lemma {:induction false} NormalisedSpec(stored: seq<StoredMethod>)
    ensures var r := Normalised(stored);
      && (forall i :: 0 <= i < |stored| ==> r[i].id == stored[i].id && r[i].name == stored[i].name)
      && (forall i :: 0 <= i < |stored| && stored[i].funds.Some? ==> r[i].funds == stored[i].funds.value)
      && (forall i :: 0 <= i < |stored| && stored[i].funds.None? ==> r[i].funds == 0)
  {
    if stored != [] {
      NormalisedSpec(stored[1..]);
    }
  }

  /** What saving writes: `JSON.stringify` of the list. */
  function Stored(ms: seq<PaymentMethod>): (r: seq<StoredMethod>)
    ensures |r| == |ms|
  {
    if ms == [] then []
    else [StoredMethod(ms[0].id, ms[0].name, Some(ms[0].funds))] + Stored(ms[1..])
  }

  /** A save writes every record with its id, name and balance all present. */
  lemma {:induction false} StoredSpec(ms: seq<PaymentMethod>)
    ensures forall i :: 0 <= i < |ms| ==> Stored(ms)[i] == StoredMethod(ms[i].id, ms[i].name, Some(ms[i].funds))
  {
    if ms != [] {
      StoredSpec(ms[1..]);
    }
  }

  /** Loading what was saved gives back the saved list. */
  lemma {:induction false} LoadAfterSave(ms: seq<PaymentMethod>)
    ensures Normalised(Stored(ms)) == ms
  {
    if ms != [] {
      LoadAfterSave(ms[1..]);
      assert ms == [ms[0]] + ms[1..];
    }
  }

  /** Saving what was loaded gives back the stored records, when none lacked `funds`. */
  lemma {:induction false} SaveAfterLoad(stored: seq<StoredMethod>)
    requires forall i :: 0 <= i < |stored| ==> stored[i].funds.Some?
    ensures Stored(Normalised(stored)) == stored
  {
    if stored != [] {
      SaveAfterLoad(stored[1..]);
      assert stored == [stored[0]] + stored[1..];
    }
  }

  /** Normalising is idempotent across a save: a second load changes nothing. */
  lemma NormaliseIdempotent(stored: seq<StoredMethod>)
    ensures Normalised(Stored(Normalised(stored))) == Normalised(stored)
  {
    LoadAfterSave(Normalised(stored));
  }

  /** Filtering distributes over concatenation, so relative order is kept. */
  lemma {:induction false} RemovedConcat(a: seq<PaymentMethod>, b: seq<PaymentMethod>, id: int)
    ensures Removed(a + b, id) == Removed(a, id) + Removed(b, id)
  {
    if a == [] {
      assert a + b == b;
    } else {
      var ab := a + b;
      assert ab[0] == a[0];
      assert ab[1..] == a[1..] + b;
      RemovedConcat(a[1..], b, id);
      if a[0].id != id {
        calc {
          Removed(ab, id);
          [a[0]] + Removed(a[1..] + b, id);
          [a[0]] + (Removed(a[1..], id) + Removed(b, id));
          ([a[0]] + Removed(a[1..], id)) + Removed(b, id);
        }
      } else {
        calc {
          Removed(ab, id);
          Removed(a[1..] + b, id);
        }
      }
    }
  }

  /** Deleting the record just added, under an id no earlier record had, restores the list. */
  lemma RemovedAppendedFresh(ms: seq<PaymentMethod>, id: int, name: string)
    requires forall i :: 0 <= i < |ms| ==> ms[i].id != id
    ensures Removed(Appended(ms, id, name), id) == ms
  {
    RemovedConcat(ms, [PaymentMethod(id, name, 0)], id);
    RemovedAbsent(ms, id);
    assert Removed([PaymentMethod(id, name, 0)], id) == [];
  }

  /** Adding under an id larger than every existing one keeps ids distinct. */
  lemma AppendedKeepsIdsDistinct(ms: seq<PaymentMethod>, id: int, name: string)
    requires DistinctIds(ms)
    requires forall i :: 0 <= i < |ms| ==> ms[i].id < id
    ensures DistinctIds(Appended(ms, id, name))
  {
  }

  /** Deleting keeps ids distinct. */
  lemma {:induction false} RemovedKeepsIdsDistinct(ms: seq<PaymentMethod>, id: int)
    requires DistinctIds(ms)
    ensures DistinctIds(Removed(ms, id))
  {
    if ms != [] {
      RemovedKeepsIdsDistinct(ms[1..], id);
      if ms[0].id != id {
        var r := Removed(ms, id);
        var rest := Removed(ms[1..], id);
        assert r == [ms[0]] + rest;
        forall k | 0 <= k < |rest|
          ensures rest[k].id != ms[0].id
        {
          RemovedMembers(ms[1..], id, rest[k]);
        }
      }
    }
  }

  /** Renaming and adding funds keep the sequence of ids, hence their distinctness. */
  lemma RenamedFundedKeepIdsDistinct(ms: seq<PaymentMethod>, target: Option<int>, name: string, amount: int)
    requires DistinctIds(ms)
    ensures DistinctIds(Renamed(ms, target, name))
    ensures DistinctIds(Funded(ms, target, amount))
  {
    RenamedSpec(ms, target, name);
    FundedSpec(ms, target, amount);
  }

  /** A non-negative top-up never lowers a balance, so balances stay non-negative. */
  lemma FundedNonDecreasing(ms: seq<PaymentMethod>, target: Option<int>, amount: int)
    requires amount >= 0
    ensures forall i :: 0 <= i < |ms| ==> Funded(ms, target, amount)[i].funds >= ms[i].funds
    ensures NonNegative(ms) ==> NonNegative(Funded(ms, target, amount))
  {
    FundedSpec(ms, target, amount);
  }
}

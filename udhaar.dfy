/** The credit screen (components/UdhaarTab.tsx): unpaid and paid entries,
    the outstanding total, and adding, settling and deleting entries. */
module Udhaar {
  import opened Wrappers
  import Seqs
  import opened Text
  import opened Numbers
  import opened Store
  import opened Sorting

  function EntryDate(e: UdhaarEntry): string { e.date }
  function EntryAmount(e: UdhaarEntry): real { e.amount }
  predicate IsUnpaid(e: UdhaarEntry) { !e.paid }
  predicate IsPaid(e: UdhaarEntry) { e.paid }
  /** The test for an unpaid entry carrying `id`. */
  function UnpaidWithId(id: string): UdhaarEntry -> bool {
    (e: UdhaarEntry) => e.id == id && !e.paid
  }

  /** The unpaid entries, newest first. */
  function Unpaid(udhaar: seq<UdhaarEntry>): (r: seq<UdhaarEntry>)
    ensures forall e :: e in r <==> e in udhaar && !e.paid
  {
    var kept := Seqs.Filter(udhaar, IsUnpaid);
    SortKeepsMembers(kept, EntryDate);
    SortByDateDesc(kept, EntryDate)
  }

  /** The paid entries, newest first. */
  function Paid(udhaar: seq<UdhaarEntry>): (r: seq<UdhaarEntry>)
    ensures forall e :: e in r <==> e in udhaar && e.paid
  {
    var kept := Seqs.Filter(udhaar, IsPaid);
    SortKeepsMembers(kept, EntryDate);
    SortByDateDesc(kept, EntryDate)
  }

  /** Both lists are newest first. */
  lemma ListsSorted(udhaar: seq<UdhaarEntry>)
    ensures SortedByDateDesc(Unpaid(udhaar), EntryDate)
    ensures SortedByDateDesc(Paid(udhaar), EntryDate)
  {
    SortIsSorted(Seqs.Filter(udhaar, IsUnpaid), EntryDate);
    SortIsSorted(Seqs.Filter(udhaar, IsPaid), EntryDate);
  }

  /** The sum of the amounts still owed. */
  function TotalOutstanding(udhaar: seq<UdhaarEntry>): (r: real)
    ensures (forall e :: e in udhaar ==> e.amount >= 0.0) ==> r >= 0.0
  {
    var u := Unpaid(udhaar);
    assert (forall e :: e in udhaar ==> e.amount >= 0.0) ==> Seqs.Sum(u, EntryAmount) >= 0.0 by {
      if forall e :: e in udhaar ==> e.amount >= 0.0 {
        Seqs.SumNonNegative(u, EntryAmount);
      }
    }
    Seqs.Sum(u, EntryAmount)
  }

  /** The two lists split the entries: each entry is in exactly one of them,
      as often as it occurs, and the counts add up. */
  lemma Partition(udhaar: seq<UdhaarEntry>)
    ensures multiset(Unpaid(udhaar)) + multiset(Paid(udhaar)) == multiset(udhaar)
    ensures |Unpaid(udhaar)| + |Paid(udhaar)| == |udhaar|
    ensures forall e :: e in udhaar ==> (e in Unpaid(udhaar) <==> !e.paid) && (e in Paid(udhaar) <==> e.paid)
  {
    Seqs.FilterPartitionMultiset(udhaar, IsUnpaid, IsPaid);
    var u, p := Unpaid(udhaar), Paid(udhaar);
    assert |multiset(u) + multiset(p)| == |multiset(udhaar)|;
    forall e | e in udhaar ensures (e in u <==> !e.paid) && (e in p <==> e.paid) {
      var fu, fp := Seqs.Filter(udhaar, IsUnpaid), Seqs.Filter(udhaar, IsPaid);
      assert e in u <==> e in multiset(fu);
      assert e in p <==> e in multiset(fp);
    }
  }

  /** The outstanding total is the sum over the unpaid entries, in any order. */
  lemma OutstandingIsUnpaidSum(udhaar: seq<UdhaarEntry>)
    ensures TotalOutstanding(udhaar) == Seqs.Sum(Seqs.Filter(udhaar, IsUnpaid), EntryAmount)
  {
    SumOfSort(Seqs.Filter(udhaar, IsUnpaid), EntryDate, EntryAmount);
  }

  /** Settling an id removes, from the unpaid sum, exactly the unpaid entries
      carrying that id. */
  lemma {:induction false} SettledUnpaidSum(udhaar: seq<UdhaarEntry>, id: string)
    ensures Seqs.Sum(Seqs.Filter(MarkPaidById(udhaar, id), IsUnpaid), EntryAmount)
         == Seqs.Sum(Seqs.Filter(udhaar, IsUnpaid), EntryAmount)
          - Seqs.Sum(Seqs.Filter(udhaar, UnpaidWithId(id)), EntryAmount)
    decreases |udhaar|
  {
    if udhaar != [] {
      var t := udhaar[1..];
      SettledUnpaidSum(t, id);
      var m := MarkPaidById(udhaar, id);
      assert m[1..] == MarkPaidById(t, id);
      assert m == [m[0]] + m[1..];
      var e := udhaar[0];
      var a := Seqs.Filter(t, IsUnpaid);
      var b := Seqs.Filter(t, UnpaidWithId(id));
      if !e.paid {
        assert Seqs.Sum([e] + a, EntryAmount) == e.amount + Seqs.Sum(a, EntryAmount) by { assert ([e] + a)[1..] == a; }
        if e.id == id {
          assert Seqs.Sum([e] + b, EntryAmount) == e.amount + Seqs.Sum(b, EntryAmount) by { assert ([e] + b)[1..] == b; }
        } else {
          var c := Seqs.Filter(MarkPaidById(t, id), IsUnpaid);
          assert Seqs.Sum([m[0]] + c, EntryAmount) == e.amount + Seqs.Sum(c, EntryAmount) by { assert ([m[0]] + c)[1..] == c; }
        }
      }
    }
  }

  /** Marking an unpaid entry paid, when ids are distinct, lowers the
      outstanding total by exactly its amount. */
  lemma MarkPaidLowersOutstanding(udhaar: seq<UdhaarEntry>, e: UdhaarEntry)
    requires Seqs.DistinctBy(udhaar, UdhaarId)
    requires e in udhaar && !e.paid
    ensures TotalOutstanding(MarkPaidById(udhaar, e.id)) == TotalOutstanding(udhaar) - e.amount
  {
    OutstandingIsUnpaidSum(udhaar);
    OutstandingIsUnpaidSum(MarkPaidById(udhaar, e.id));
    SettledUnpaidSum(udhaar, e.id);
    Seqs.FilterUniqueKey(udhaar, UnpaidWithId(e.id), UdhaarId, e);
    assert Seqs.Sum([e], EntryAmount) == e.amount + Seqs.Sum([], EntryAmount) by { assert [e][1..] == []; }
  }

  /** Entries of 100 and 30 unpaid and 50 paid leave 130 outstanding. */
  lemma OutstandingExample()
    ensures TotalOutstanding([
      UdhaarEntry("a", "Ravi", 100.0, "2024-05-01", "", false),
      UdhaarEntry("b", "Uma", 50.0, "2024-05-02", "", true),
      UdhaarEntry("c", "Anil", 30.0, "2024-05-03", "", false)]) == 130.0
  {
    OutstandingOfThree(
      UdhaarEntry("a", "Ravi", 100.0, "2024-05-01", "", false),
      UdhaarEntry("b", "Uma", 50.0, "2024-05-02", "", true),
      UdhaarEntry("c", "Anil", 30.0, "2024-05-03", "", false));
  }

  lemma OutstandingOfThree(a: UdhaarEntry, b: UdhaarEntry, c: UdhaarEntry)
    requires !a.paid && b.paid && !c.paid
    ensures TotalOutstanding([a, b, c]) == a.amount + c.amount
  {
    OutstandingIsUnpaidSum([a, b, c]);
    UnpaidOfThree(a, b, c);
    SumOfTwo(a, c);
  }

  lemma SumOfTwo(a: UdhaarEntry, c: UdhaarEntry)
    ensures Seqs.Sum([a, c], EntryAmount) == a.amount + c.amount
  {
    assert [a, c][1..] == [c] && [c][1..] == [];
    assert Seqs.Sum([c], EntryAmount) == c.amount;
  }

  lemma UnpaidOfThree(a: UdhaarEntry, b: UdhaarEntry, c: UdhaarEntry)
    requires !a.paid && b.paid && !c.paid
    ensures Seqs.Filter([a, b, c], IsUnpaid) == [a, c]
  {
    Seqs.FilterStep([a, b, c], IsUnpaid);
    assert [a, b, c][1..] == [b, c];
    UnpaidOfTwo(b, c);
  }

  lemma UnpaidOfTwo(b: UdhaarEntry, c: UdhaarEntry)
    requires b.paid && !c.paid
    ensures Seqs.Filter([b, c], IsUnpaid) == [c]
  {
    Seqs.FilterStep([b, c], IsUnpaid);
    assert [b, c][1..] == [c];
    UnpaidOfOne(c);
  }

  lemma UnpaidOfOne(c: UdhaarEntry)
    requires !c.paid
    ensures Seqs.Filter([c], IsUnpaid) == [c]
  {
    Seqs.FilterStep([c], IsUnpaid);
    assert [c][1..] == [];
  }

  /** The add-entry form and the pending delete confirmation. */
  class UdhaarScreen {
    var dialogOpen: bool
    var name: string
    var amount: string
    var note: string
    var deleteId: Option<string>

    constructor ()
      ensures !dialogOpen && name == "" && amount == "" && note == "" && deleteId == None
    {
      dialogOpen, name, amount, note, deleteId := false, "", "", "", None;
    }

    /** `handleAdd`: refuses a blank name or an amount that is not a number
        above zero; otherwise records the trimmed name and note, unpaid, and
        resets the form. */
    method HandleAdd(store: EntityStore, id: string, now: string, ghost writeOk: bool) returns (outcome: Outcome)
      requires FreshId(store.udhaar, UdhaarId, id)
      modifies this, store
      ensures IsBlank(old(name)) || PositiveNumber(old(amount)).None? ==>
        && outcome == Fail("Enter valid name and amount")
        && store.udhaar == old(store.udhaar) && store.storage == old(store.storage)
        && name == old(name) && amount == old(amount) && note == old(note) && dialogOpen == old(dialogOpen)
      ensures !IsBlank(old(name)) && PositiveNumber(old(amount)).Some? ==>
        && outcome == Pass
        && store.udhaar == old(store.udhaar) + [UdhaarEntry(id, Trim(old(name)), PositiveNumber(old(amount)).value, now, Trim(old(note)), false)]
        && store.storage == SaveToStorage(old(store.storage), UdhaarKey, UdhaarBlob(store.udhaar), writeOk)
        && name == "" && amount == "" && note == "" && !dialogOpen
      ensures deleteId == old(deleteId)
      ensures store.items == old(store.items) && store.sales == old(store.sales)
      ensures store.expenses == old(store.expenses) && store.settings == old(store.settings)
    {
      var amt := ParseFloat(amount);
      if Trim(name) == "" || amt.None? || amt.value <= 0.0 {
        return Fail("Enter valid name and amount");
      }
      var _ := store.AddUdhaarEntry(Trim(name), amt.value, Trim(note), id, now, writeOk);
      outcome := Pass;
      name, amount, note, dialogOpen := "", "", "", false;
    }

    method HandleMarkPaid(store: EntityStore, id: string, ghost writeOk: bool)
      modifies store
      ensures store.udhaar == MarkPaidById(old(store.udhaar), id)
      ensures store.storage == SaveToStorage(old(store.storage), UdhaarKey, UdhaarBlob(store.udhaar), writeOk)
      ensures store.items == old(store.items) && store.sales == old(store.sales)
      ensures store.expenses == old(store.expenses) && store.settings == old(store.settings)
    {
      store.MarkUdhaarPaid(id, writeOk);
    }

    method HandleDelete(store: EntityStore, id: string, ghost writeOk: bool)
      modifies this, store
      ensures store.udhaar == WithoutId(old(store.udhaar), UdhaarId, id)
      ensures store.storage == SaveToStorage(old(store.storage), UdhaarKey, UdhaarBlob(store.udhaar), writeOk)
      ensures store.items == old(store.items) && store.sales == old(store.sales)
      ensures store.expenses == old(store.expenses) && store.settings == old(store.settings)
      ensures deleteId == None
      ensures name == old(name) && amount == old(amount) && note == old(note) && dialogOpen == old(dialogOpen)
    {
      store.DeleteUdhaarEntry(id, writeOk);
      deleteId := None;
    }
  }
}

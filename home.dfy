/** The home page's transaction state (app/page.tsx): the payables and
    receivables lists, seeded from the fetched transactions and changed by the
    delete, add and update handlers. */
module Home {
  import opened Transactions
  import opened Seqs

  function KindIs(k: Kind): Item -> bool
  {
    (x: Item) => x.kind == k
  }

  function IdIsNot(id: Id): Item -> bool
  {
    (x: Item) => x.id != id
  }

  /** Some item in `s` carries `id`. */
  predicate HasId(s: seq<Item>, id: Id)
  {
    exists i :: 0 <= i < |s| && s[i].id == id
  }

  /** Every item in `s` is of kind `k`. */
  predicate AllOfKind(s: seq<Item>, k: Kind)
  {
    forall i :: 0 <= i < |s| ==> s[i].kind == k
  }

  /** data.filter(item => item.type === k) */
  function OfKind(data: seq<Item>, k: Kind): (r: seq<Item>)
    ensures AllOfKind(r, k)
    ensures forall x :: x in r <==> x in data && x.kind == k
  {
    var r := Filter(data, KindIs(k));
    assert forall i :: 0 <= i < |r| ==> r[i] in r;
    r
  }

  /** list.filter(item => item.id !== id) */
  function WithoutId(s: seq<Item>, id: Id): (r: seq<Item>)
    ensures !HasId(r, id)
    ensures forall x :: x in r <==> x in s && x.id != id
  {
    var r := Filter(s, IdIsNot(id));
    assert forall i :: 0 <= i < |r| ==> r[i] in r;
    r
  }

  /** list.map(item => item.id === u.id ? u : item) */
  function ReplaceById(s: seq<Item>, u: Item): (r: seq<Item>)
    ensures |r| == |s|
    ensures forall i :: 0 <= i < |s| ==> r[i].id == s[i].id
    ensures forall i :: 0 <= i < |s| && s[i].id == u.id ==> r[i] == u
    ensures forall i :: 0 <= i < |s| && s[i].id != u.id ==> r[i] == s[i]
    ensures forall x :: x in r ==> x in s || x == u
  {
    seq(|s|, i requires 0 <= i < |s| => if s[i].id == u.id then u else s[i])
  }

  /** The fetched list splits into the two lists with nothing lost or duplicated. */
  lemma SplitPartitions(data: seq<Item>)
    ensures multiset(OfKind(data, Pagar)) + multiset(OfKind(data, Receber)) == multiset(data)
  {
  }

  /** Deleting an id that no item carries changes nothing. */
  lemma DeleteAbsent(s: seq<Item>, id: Id)
    requires !HasId(s, id)
    ensures WithoutId(s, id) == s
  {
    FilterKeepsAll(s, IdIsNot(id));
  }

  /** Deleting from a list made of two parts deletes from each part in place:
      the surviving items keep their relative order. */
  lemma DeleteKeepsOrder(a: seq<Item>, b: seq<Item>, id: Id)
    ensures WithoutId(a + b, id) == WithoutId(a, id) + WithoutId(b, id)
  {
    FilterConcat(a, b, IdIsNot(id));
  }

  /** Deleting keeps a list of one kind of that kind. */
  lemma DeleteKeepsKind(s: seq<Item>, id: Id, k: Kind)
    requires AllOfKind(s, k)
    ensures AllOfKind(WithoutId(s, id), k)
  {
  }

  /** Replacing by an id that no item carries changes nothing. */
  lemma UpdateAbsent(s: seq<Item>, u: Item)
    requires !HasId(s, u.id)
    ensures ReplaceById(s, u) == s
  {
  }

  /** Replacing twice with the same record is replacing once. */
  lemma UpdateIdempotent(s: seq<Item>, u: Item)
    ensures ReplaceById(ReplaceById(s, u), u) == ReplaceById(s, u)
  {
  }

  /** Replacing with a record of the list's kind keeps the list of that kind. */
  lemma UpdateKeepsKind(s: seq<Item>, u: Item)
    requires AllOfKind(s, u.kind)
    ensures AllOfKind(ReplaceById(s, u), u.kind)
  {
  }

  class PaymentLists {
    var payables: seq<Item>
    var receivables: seq<Item>

    /** Each list holds only items of its own kind. */
    predicate Valid()
      reads this
    {
      AllOfKind(payables, Pagar) && AllOfKind(receivables, Receber)
    }

    /** useState([]) for both lists. */
    constructor ()
      ensures payables == [] && receivables == []
      ensures Valid()
    {
      payables := [];
      receivables := [];
    }

    /** The split of the fetched transactions by type. */
    method Load(data: seq<Item>)
      modifies this
      ensures payables == OfKind(data, Pagar)
      ensures receivables == OfKind(data, Receber)
      ensures Valid()
    {
      payables := OfKind(data, Pagar);
      receivables := OfKind(data, Receber);
    }

    /** handleDelete: drop every item with `id` from both lists. */
    method HandleDelete(id: Id)
      modifies this
      ensures payables == WithoutId(old(payables), id)
      ensures receivables == WithoutId(old(receivables), id)
      ensures !HasId(old(payables), id) && !HasId(old(receivables), id) ==>
        payables == old(payables) && receivables == old(receivables)
      ensures old(Valid()) ==> Valid()
    {
      if !HasId(payables, id) && !HasId(receivables, id) {
        DeleteAbsent(payables, id);
        DeleteAbsent(receivables, id);
      }
      if Valid() {
        DeleteKeepsKind(payables, id, Pagar);
        DeleteKeepsKind(receivables, id, Receber);
      }
      payables := WithoutId(payables, id);
      receivables := WithoutId(receivables, id);
    }

    /** handleAddPayment: append to the list of the new item's type. */
    method HandleAddPayment(p: Item)
      modifies this
      ensures p.kind == Pagar ==> payables == old(payables) + [p] && receivables == old(receivables)
      ensures p.kind != Pagar ==> receivables == old(receivables) + [p] && payables == old(payables)
      ensures old(Valid()) ==> Valid()
    {
      if p.kind == Pagar {
        payables := payables + [p];
      } else {
        receivables := receivables + [p];
      }
    }

    /** handleUpdatePayment: replace by id in the list of the update's type. */
    method HandleUpdatePayment(u: Item)
      modifies this
      ensures u.kind == Pagar ==>
        payables == ReplaceById(old(payables), u) && receivables == old(receivables)
      ensures u.kind != Pagar ==>
        receivables == ReplaceById(old(receivables), u) && payables == old(payables)
      ensures (u.kind == Pagar ==> !HasId(old(payables), u.id)) &&
              (u.kind != Pagar ==> !HasId(old(receivables), u.id)) ==>
        payables == old(payables) && receivables == old(receivables)
      ensures old(Valid()) ==> Valid()
    {
      if u.kind == Pagar {
        if !HasId(payables, u.id) {
          UpdateAbsent(payables, u);
        }
        payables := ReplaceById(payables, u);
      } else {
        if !HasId(receivables, u.id) {
          UpdateAbsent(receivables, u);
        }
        receivables := ReplaceById(receivables, u);
      }
    }
  }
}

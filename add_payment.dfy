/** The "new payment" dialog (app/dashboard/dialog.tsx): eight form fields, a
    category list that depends on the type, and a submit that validates the
    fields, emits a signed record and resets the form. */
module AddPayment {
  import opened Transactions

  /** The record handed to onAddTransaction. */
  datatype NewPayment = NewPayment(
    date: string,
    description: string,
    category: string,
    paymentMethod: string,
    installment: string,
    paid: bool,
    value: int,
    kind: Kind)

  /** The values of the form's eight fields. */
  datatype FormState = FormState(
    kind: Kind,
    date: string,
    description: string,
    category: string,
    paymentMethod: string,
    installment: string,
    paid: bool,
    value: string)

  /** The fields as the dialog first shows them. */
  const InitialForm := FormState(Pagar, "", "", "", "", "1/1", false, "")

  /** The category options: fixed and adverse expenses for "pagar", revenues
      for "receber". */
  function Categories(kind: Kind, fixedExpenses: seq<string>, adverseExpenses: seq<string>,
                      revenues: seq<string>): (r: seq<string>)
    ensures kind == Pagar ==> |r| == |fixedExpenses| + |adverseExpenses| && r[..|fixedExpenses|] == fixedExpenses
    ensures kind == Pagar ==> r[|fixedExpenses|..] == adverseExpenses
    ensures kind == Receber ==> r == revenues
  {
    if kind == Pagar then fixedExpenses + adverseExpenses else revenues
  }

  /** The sign rule: -|v| for "pagar", |v| for "receber". */
  function Signed(kind: Kind, v: int): (r: int)
    ensures Abs(r) == Abs(v)
    ensures kind == Pagar ==> r <= 0
    ensures kind == Receber ==> r >= 0
  {
    var magnitude: int := Abs(v);
    if kind == Pagar then -magnitude else magnitude
  }

  /** Every text field the submit checks is non-empty. */
  predicate Filled(st: FormState)
  {
    st.date != "" && st.description != "" && st.category != ""
    && st.paymentMethod != "" && st.installment != ""
  }

  /** What a submit emits, given the parse of the value field: nothing when a
      field is empty or the value does not parse; otherwise the fields, with
      the value signed by the type. */
  function Submitted(st: FormState, parsed: Option<int>): (r: Option<NewPayment>)
    ensures r.Some? <==> Filled(st) && parsed.Some?
    ensures r.Some? ==>
      && r.value.date == st.date && r.value.description == st.description
      && r.value.category == st.category && r.value.paymentMethod == st.paymentMethod
      && r.value.installment == st.installment && r.value.paid == st.paid
      && r.value.kind == st.kind && Abs(r.value.value) == Abs(parsed.value)
    ensures r.Some? ==> (r.value.kind == Pagar ==> r.value.value <= 0)
                        && (r.value.kind == Receber ==> r.value.value >= 0)
  {
    if !Filled(st) || parsed.None? then None
    else Some(NewPayment(st.date, st.description, st.category, st.paymentMethod,
                         st.installment, st.paid, Signed(st.kind, parsed.value), st.kind))
  }

  /** The fields after a submit: untouched when it was rejected; otherwise back
      to their initial values, except the type, which is kept. */
  function AfterSubmit(st: FormState, parsed: Option<int>): (r: FormState)
    ensures Submitted(st, parsed).None? ==> r == st
    ensures Submitted(st, parsed).Some? ==> r == InitialForm.(kind := st.kind)
  {
    if !Filled(st) || parsed.None? then st
    else st.(date := "", description := "", category := "", paymentMethod := "",
             installment := "1/1", paid := false, value := "")
  }

  /** A second submit straight after an accepted one emits nothing, whatever
      the value parses to: the reset emptied the date. */
  lemma ResubmitRejected(st: FormState, parsed: Option<int>, parsedAgain: Option<int>)
    requires Submitted(st, parsed).Some?
    ensures Submitted(AfterSubmit(st, parsed), parsedAgain).None?
    ensures AfterSubmit(AfterSubmit(st, parsed), parsedAgain) == AfterSubmit(st, parsed)
  {
  }

  class AddForm {
    var kind: Kind
    var date: string
    var description: string
    var category: string
    var paymentMethod: string
    var installment: string
    var paid: bool
    var value: string

    function State(): FormState
      reads this
    {
      FormState(kind, date, description, category, paymentMethod, installment, paid, value)
    }

    /** The useState initial values. */
    constructor ()
      ensures State() == InitialForm
    {
      kind := Pagar;
      date := "";
      description := "";
      category := "";
      paymentMethod := "";
      installment := "1/1";
      paid := false;
      value := "";
    }

    /** handleSubmit. `parse` stands for parseFloat: None where it gives NaN. */
    method HandleSubmit(parse: string -> Option<int>) returns (emitted: Option<NewPayment>)
      modifies this
      ensures emitted == Submitted(old(State()), parse(old(value)))
      ensures State() == AfterSubmit(old(State()), parse(old(value)))
    {
      var parsed := parse(value);
      if date == "" || description == "" || category == "" || paymentMethod == ""
         || installment == "" || parsed.None? {
        emitted := None;
        return;
      }
      var magnitude: int := Abs(parsed.value);
      emitted := Some(NewPayment(date, description, category, paymentMethod, installment, paid,
                                 if kind == Pagar then -magnitude else magnitude, kind));
      date := "";
      description := "";
      category := "";
      paymentMethod := "";
      installment := "1/1";
      paid := false;
      value := "";
    }
  }
}

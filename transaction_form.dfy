/** The dashboard's "Add New Transaction" form: its fields and its submit
    handler, which hands one record to the page and clears the amount and
    the description. */
module TransactionForm {
  import opened Common

  /** The record the form hands over: type, amount, description and date,
      with no id and no stamp. */
  function FormRecord(txType: string, amount: real, description: string, date: int): (t: Tx)
    ensures t.transactionType == txType && t.amount == amount
    ensures t.description == description && t.transactionDate == Some(date)
    // no id and no stamp: the page assigns them
    ensures t.id.None? && t.createdAt.None?
  {
    Tx(None, amount, txType, "", "", description, None, Some(date))
  }

  class Form {
    var amount: NumField
    var txType: string
    var description: string
    var date: int

    /** A fresh form on day `today`: an Income entry with empty amount and
        description. */
    constructor (today: int)
      ensures amount == Blank && txType == "Income" && description == "" && date == today
    {
      amount := Blank;
      txType := "Income";
      description := "";
      date := today;
    }

    /** `handleSubmit`: `inserted` is what `onTransactionInsert` receives,
        None when it is not called. A blank amount calls nothing and changes
        nothing; otherwise the record carries the current fields, and the
        amount and description are cleared while type and date stay. */
    method HandleSubmit() returns (inserted: Option<Tx>)
      modifies this`amount, this`description
      ensures old(amount).Blank? ==>
        inserted == None && amount == old(amount) && description == old(description)
      ensures old(amount).Num? ==>
        inserted == Some(FormRecord(txType, old(amount).value, old(description), date))
        && amount == Blank && description == ""
    {
      if amount.Blank? {
        return None;
      }
      inserted := Some(FormRecord(txType, amount.value, description, date));
      amount := Blank;
      description := "";
    }
  }

  /** Two submits in a row: the second finds the amount cleared and hands
      nothing over, so one filled form yields exactly one record. */
  method SubmitTwice(today: int, value: real, text: string) returns (first: Option<Tx>, second: Option<Tx>)
    ensures first == Some(FormRecord("Income", value, text, today))
    ensures second == None
  {
    var form := new Form(today);
    form.amount := Num(value);
    form.description := text;
    first := form.HandleSubmit();
    second := form.HandleSubmit();
  }
}

/** The account dashboard's transaction list: loading it, inserting a new
    transaction, deleting one, and taking in an edited one. A guest's list
    lives only here; a signed-in user's list mirrors the backend. */
module Account {
  import opened Common

  class AccountPage {
    const isGuest: bool
    const hasUser: bool       // `session?.user` is present
    var transactions: seq<Tx>
    var editingTransaction: Option<Tx>
    var loading: bool
    var username: string

    constructor (isGuest: bool, hasUser: bool)
      ensures this.isGuest == isGuest && this.hasUser == hasUser
      ensures transactions == [] && editingTransaction == None && loading
      ensures username == (if isGuest then "Guest" else "")
    {
      this.isGuest := isGuest;
      this.hasUser := hasUser;
      transactions := [];
      editingTransaction := None;
      loading := true;
      username := if isGuest then "Guest" else "";
    }

    /** `fetchData` with the outcomes of the profile query (`profile`, the
        stored user name if a row was found) and of the transaction query.
        A guest only stops loading. A signed-in user takes the profile's
        name and, unless the query failed, the fetched rows. Without a user
        the first query throws and nothing but `loading` changes. */
    method FetchData(profile: Option<string>, rows: Fetch<seq<Tx>>)
      modifies this`transactions, this`loading, this`username
      ensures !loading
      ensures isGuest || !hasUser ==>
        transactions == old(transactions) && username == old(username)
      ensures !isGuest && hasUser ==>
        username == (if profile.Some? then profile.value else old(username))
        && transactions == (if rows.Fetched? then OrEmpty(rows.data) else old(transactions))
    {
      if isGuest {
        loading := false;
        return;
      }
      loading := true;
      if hasUser {
        if profile.Some? {
          username := profile.value;
        }
        if rows.Fetched? {
          transactions := OrEmpty(rows.data);
        }
      }
      loading := false;
    }

    /** `handleNewTransaction(newTx)`, with `freshId` the value of
        `Date.now()` and `inserted` the outcome of the backend insert. A
        guest prepends the record under the fresh id. A signed-in user
        prepends the row the backend returned, and only on success; a failed
        insert, an empty answer or a missing user keeps the list. */
    method HandleNewTransaction(newTx: Tx, freshId: int, inserted: Fetch<Tx>)
      modifies this`transactions
      ensures isGuest ==> transactions == [newTx.(id := Some(freshId))] + old(transactions)
      ensures !isGuest && hasUser && inserted.Fetched? && inserted.data.Some? ==>
        transactions == [inserted.data.value] + old(transactions)
      ensures !isGuest && !(hasUser && inserted.Fetched? && inserted.data.Some?) ==>
        transactions == old(transactions)
    {
      if isGuest {
        transactions := [newTx.(id := Some(freshId))] + transactions;
        return;
      }
      if hasUser && inserted.Fetched? && inserted.data.Some? {
        transactions := [inserted.data.value] + transactions;
      }
    }

    /** `handleDelete(id)`: declined, nothing changes; confirmed, the
        entries with that id go and the others stay in order. For a
        signed-in user the backend's answer (`deleteFailed`) is awaited but
        not inspected, so the entries go even when the delete failed. */
    method HandleDelete(id: Option<int>, confirmed: bool, deleteFailed: bool)
      modifies this`transactions
      ensures !confirmed ==> transactions == old(transactions)
      ensures confirmed ==>
        transactions == RemoveId(old(transactions), TxId, id)
        && (forall t :: t in transactions ==> t.id != id)
        && (forall t :: t in old(transactions) && t.id != id ==> t in transactions)
    {
      if !confirmed {
        return;
      }
      transactions := RemoveId(transactions, TxId, id);
    }

    /** `handleUpdateSuccess(updated)`: every entry with the updated id is
        replaced by it, all others stay where they were, and the edit modal
        closes. */
    method HandleUpdateSuccess(updated: Tx)
      modifies this`transactions, this`editingTransaction
      ensures |transactions| == |old(transactions)|
      ensures forall i :: 0 <= i < |transactions| ==>
        transactions[i] == (if old(transactions)[i].id == updated.id then updated else old(transactions)[i])
      ensures editingTransaction == None
    {
      transactions := ReplaceId(transactions, TxId, updated.id, (t: Tx) => updated);
      editingTransaction := None;
    }
  }

  /** A guest deletes what they just inserted: when no earlier entry shares
      the fresh id, the list is back to what it was. */
  method GuestInsertThenDelete(newTx: Tx, freshId: int, before: seq<Tx>, confirmed: bool) returns (after: seq<Tx>)
    requires forall i :: 0 <= i < |before| ==> before[i].id != Some(freshId)
    ensures confirmed ==> after == before
    ensures !confirmed ==> after == [newTx.(id := Some(freshId))] + before
  {
    var page := new AccountPage(true, false);
    page.transactions := before;
    page.HandleNewTransaction(newTx, freshId, Failed);
    page.HandleDelete(Some(freshId), confirmed, false);
    if confirmed {
      RemoveIdConcat([newTx.(id := Some(freshId))], before, TxId, Some(freshId));
      RemoveIdAbsent(before, TxId, Some(freshId));
    }
    after := page.transactions;
  }
}

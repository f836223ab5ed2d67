/**
 The Collectible contract: an in-memory multi-token ledger with an
 owner-gated greeting. The identity of the signer of each call is an explicit
 caller parameter.
 */
module Contract {
  import opened Ledger
  import LedgerProperties

  /** The record steps of nft_transfer: the recipient's key first receives the
      caller's record; the caller's record loses a unit and is deleted at zero;
      the recipient's key is overwritten with a fresh one-unit record. */
  method DebitAndCredit(byId: map<Key, Token>, t: int, caller: AccountId, to: AccountId)
    returns (r: map<Key, Token>)
    requires (t, caller) in byId
    ensures r == Transferred(byId, t, caller, to)
  {
    r := byId[(t, to) := byId[(t, caller)]];
    var token := r[(t, caller)];
    token := token.(balance := token.balance - 1);
    if token.balance == 0 {
      r := r - {(t, caller)};
    } else {
      r := r[(t, caller) := token];
    }
    r := r[(t, to) := NewToken(to, t)];
    LedgerProperties.TransferAliasOverwritten(byId, t, caller, to);
  }

  class Collectible {
    var greeting: string
    var owner: AccountId
    var tokensPerOwner: map<AccountId, int>
    var tokensById: map<Key, Token>

    /** The object invariant: records agree with their keys and hold at least
        one unit, and every holder has a per-account count. */
    ghost predicate Valid()
      reads this
    {
      WellFormed(tokensById) && Indexed(tokensById, tokensPerOwner)
    }

    /** The account that constructs the ledger owns it; the greeting starts as "hi". */
    constructor (caller: AccountId)
      ensures Valid()
      ensures owner == caller && greeting == "hi"
      ensures tokensPerOwner == map[] && tokensById == map[]
    {
      greeting := "hi";
      owner := caller;
      tokensPerOwner := map[];
      tokensById := map[];
    }

    function GetGreeting(): (g: string)
      reads this
    {
      greeting
    }

    /** Only the ledger's owner may change the greeting. */
    method SetGreeting(caller: AccountId, newGreeting: string) returns (r: Result<()>)
      requires Valid()
      modifies this
      ensures Valid()
      ensures r.Ok? <==> caller == old(owner)
      ensures r.Err? ==> r.error == NotContractOwner
      ensures GetGreeting() == if r.Ok? then newGreeting else old(greeting)
      ensures owner == old(owner) && tokensPerOwner == old(tokensPerOwner) && tokensById == old(tokensById)
    {
      if caller != owner {
        return Err(NotContractOwner);
      }
      greeting := newGreeting;
      r := Ok(());
    }

    /** nft_total_supply: the sum of the balances of all records. */
    method NftTotalSupply() returns (supply: int)
      ensures supply == Supply(tokensById)
    {
      supply := 0;
      var rest := tokensById.Keys;
      while rest != {}
        invariant rest <= tokensById.Keys
        invariant supply + SumOf(tokensById, rest) == Supply(tokensById)
        decreases rest
      {
        var k :| k in rest;
        SumOfRemove(tokensById, rest, k);
        supply := supply + tokensById[k].balance;
        rest := rest - {k};
      }
    }

    /** nft_approve: the caller grants grantee approval on its own record. */
    method NftApprove(caller: AccountId, t: int, grantee: AccountId) returns (r: Result<bool>)
      requires Valid()
      modifies this
      ensures Valid()
      ensures r.Err? <==> ApproveCheck(old(tokensById), t, caller).Some?
      ensures r.Err? ==> r.error == ApproveCheck(old(tokensById), t, caller).value
      ensures r.Err? <==> old((t, caller) !in tokensById)
      ensures r.Err? ==> r.error == MissingRecord && tokensById == old(tokensById)
      ensures r.Ok? ==> r.value && tokensById == Approved(old(tokensById), t, caller, grantee)
      ensures greeting == old(greeting) && owner == old(owner) && tokensPerOwner == old(tokensPerOwner)
    {
      if (t, caller) !in tokensById {
        return Err(MissingRecord);
      }
      var token := tokensById[(t, caller)];
      if caller != token.owner_id {
        return Err(NotTokenOwner);
      }
      LedgerProperties.ApproveKeepsValid(tokensById, tokensPerOwner, t, caller, grantee);
      // A plain-object write to the key "__proto__" runs the prototype
      // setter, which ignores a number: no approval is stored for it.
      if grantee != ProtoKey {
        token := token.(approved_account_ids := token.approved_account_ids[grantee := token.next_approval_id]);
      }
      token := token.(next_approval_id := token.next_approval_id + 1);
      tokensById := tokensById[(t, caller) := token];
      r := Ok(true);
    }

    /** nft_is_approved: fails without a record for (t, ownerAccount); otherwise
        true exactly when account is among the record's approved accounts or
        is its owner. */
    method NftIsApproved(account: AccountId, t: int, ownerAccount: AccountId) returns (r: Result<bool>)
      ensures r == Approval(tokensById, t, ownerAccount, account)
      ensures r.Err? <==> (t, ownerAccount) !in tokensById
      ensures r.Err? ==> r.error == MissingRecord
      ensures r.Ok? ==> (r.value <==> account in tokensById[(t, ownerAccount)].approved_account_ids
                                      || account == tokensById[(t, ownerAccount)].owner_id)
    {
      if (t, ownerAccount) !in tokensById {
        return Err(MissingRecord);
      }
      var token := tokensById[(t, ownerAccount)];
      var isApproved := false;
      // The keys of approved_account_ids, in no particular order.
      var rest := token.approved_account_ids.Keys;
      while rest != {}
        invariant rest <= token.approved_account_ids.Keys
        invariant isApproved <==> account in token.approved_account_ids.Keys - rest
        decreases rest
      {
        var key :| key in rest;
        if key == account {
          isApproved := true;
        }
        rest := rest - {key};
      }
      r := Ok(isApproved || token.owner_id == account);
    }

    /** nft_balance: the units of token t that account holds, 0 without a record. */
    function NftBalance(account: AccountId, t: int): (b: int)
      reads this
      ensures (t, account) in tokensById ==> b == tokensById[(t, account)].balance
      ensures (t, account) !in tokensById ==> b == 0
      ensures Valid() ==> b >= 0 && (b == 0 <==> (t, account) !in tokensById)
    {
      Balance(tokensById, t, account)
    }

    /** collection_balance: the account's per-account count, absent when the
        account was never credited. */
    function CollectionBalance(account: AccountId): (r: Option<int>)
      reads this
      ensures r.Some? <==> account in tokensPerOwner
      ensures r.Some? ==> r.value == tokensPerOwner[account]
      ensures Valid() && (exists k :: k in tokensById && k.1 == account) ==> r.Some?
    {
      if account in tokensPerOwner then Some(tokensPerOwner[account]) else None
    }

    /** nft_collect: one more unit of token t for the caller. */
    method NftCollect(caller: AccountId, t: int) returns (ok: bool)
      requires Valid()
      modifies this
      ensures Valid()
      ensures ok
      ensures tokensById == Collected(old(tokensById), t, caller)
      ensures tokensPerOwner == CollectedIndex(old(tokensPerOwner), caller)
      ensures greeting == old(greeting) && owner == old(owner)
    {
      ghost var m, p := tokensById, tokensPerOwner;
      if (t, caller) in tokensById {
        tokensPerOwner := tokensPerOwner[caller := tokensPerOwner[caller] + 1];
      } else if caller !in tokensPerOwner || tokensPerOwner[caller] == 0 {
        tokensPerOwner := tokensPerOwner[caller := 1];
      } else {
        tokensPerOwner := tokensPerOwner[caller := tokensPerOwner[caller] + 1];
      }
      assert tokensPerOwner == CollectedIndex(p, caller);
      if (t, caller) in tokensById {
        var token := tokensById[(t, caller)];
        token := token.(balance := token.balance + 1);
        tokensById := tokensById[(t, caller) := token];
      } else {
        tokensById := tokensById[(t, caller) := NewToken(caller, t)];
      }
      assert tokensById == Collected(m, t, caller);
      LedgerProperties.CollectKeepsValid(m, p, t, caller);
      ok := true;
    }

    /** nft_transfer: move one unit of token t from `from` to `to`. The checks
        look at from's record; the debit is applied to the caller's record. When
        the checks pass the caller must hold a record of the token (otherwise the
        contract stores undefined under to's key and then throws, which is not
        modelled). */
    method NftTransfer(caller: AccountId, t: int, to: AccountId, from: AccountId) returns (r: Result<bool>)
      requires Valid()
      requires (t, from) in tokensById ==> (t, caller) in tokensById
      modifies this
      ensures Valid()
      ensures r.Err? <==> TransferCheck(old(tokensById), t, from).Some?
      ensures r.Err? ==> r.error == TransferCheck(old(tokensById), t, from).value
      ensures r.Err? ==> tokensById == old(tokensById) && tokensPerOwner == old(tokensPerOwner)
      ensures r.Ok? ==> r.value
      ensures r.Ok? ==> tokensById == Transferred(old(tokensById), t, caller, to)
      ensures r.Ok? ==> old(from in tokensPerOwner) &&
                        tokensPerOwner == TransferredIndex(old(tokensPerOwner), from, to)
      ensures greeting == old(greeting) && owner == old(owner)
    {
      // checks
      var approved := NftIsApproved(from, t, from);
      if approved.Err? {
        return Err(approved.error);
      }
      if !approved.value {
        return Err(NotApproved);
      }
      if NftBalance(from, t) <= 0 {
        return Err(NoBalance);
      }
      ghost var m, p := tokensById, tokensPerOwner;
      assert from in p;
      // to's key first receives the caller's record, which is then debited
      // and the key overwritten
      tokensById := DebitAndCredit(tokensById, t, caller, to);
      // update tokens per owner
      tokensPerOwner := tokensPerOwner[from := tokensPerOwner[from] - 1];
      var credited := if to in tokensPerOwner && tokensPerOwner[to] != 0 then tokensPerOwner[to] else 0;
      tokensPerOwner := tokensPerOwner[to := credited + 1];
      assert tokensPerOwner == TransferredIndex(p, from, to);
      LedgerProperties.TransferKeepsValid(m, p, t, caller, from, to);
      r := Ok(true);
    }
  }
}

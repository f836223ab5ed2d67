/**
 The values of the collectible ledger: the per-holder token record, the two
 maps the contract keeps (records keyed by token id and holder, and the
 per-account unit count), and the pure functions that say how each operation
 changes them. The class in module Contract is proved against these.
 */
module Ledger {

  type AccountId = string

  /** One holder's record for one token id. */
  datatype Token = Token(
    owner_id: AccountId,
    token_id: int,
    approved_account_ids: map<AccountId, int>,
    next_approval_id: int,
    balance: int)

  /** The composite key (token id, holder). The contract renders it as the
      string token_id + ":" + account; a number never renders with a ':',
      so the rendering is injective and the pair is an exact stand-in. */
  type Key = (int, AccountId)

  datatype Option<T> = None | Some(value: T)

  /** The ways an operation can fail (an exception thrown by the contract). */
  datatype Error =
    | MissingRecord      // a record is dereferenced that is not in the map (TypeError)
    | NotTokenOwner      // "Predecessor must be the token owner"
    | NotApproved        // "user is not approved"
    | NoBalance          // "user has no balance"
    | NotContractOwner   // "Sender not the Owner"

  datatype Result<T> = Ok(value: T) | Err(error: Error)

  /** The one key a plain JavaScript object does not store on assignment:
      writing a number to "__proto__" runs the inherited prototype setter,
      which ignores non-objects, so no own key appears and Object.keys never
      lists it. */
  const ProtoKey: AccountId := "__proto__"

  /** The record created for a first unit: balance 1, no approvals. */
  function NewToken(owner: AccountId, t: int): Token
  {
    Token(owner, t, map[], 0, 1)
  }

  // ---------------------------------------------------------------------------
  // Invariants of the maps

  /** A record stored under key k agrees with its key, holds at least one unit,
      its approval ids are distinct, non-negative and below the next id to hand
      out, and "__proto__" is never among its approved accounts. */
  ghost predicate WellFormedToken(k: Key, tok: Token)
  {
    && tok.token_id == k.0
    && tok.owner_id == k.1
    && tok.balance >= 1
    && tok.next_approval_id >= 0
    && ProtoKey !in tok.approved_account_ids
    && (forall g :: g in tok.approved_account_ids ==>
          0 <= tok.approved_account_ids[g] < tok.next_approval_id)
    && (forall g, h :: g in tok.approved_account_ids && h in tok.approved_account_ids && g != h ==>
          tok.approved_account_ids[g] != tok.approved_account_ids[h])
  }

  ghost predicate WellFormed(m: map<Key, Token>)
  {
    forall k :: k in m ==> WellFormedToken(k, m[k])
  }

  /** Every holder of a record has an entry in the per-account count. */
  ghost predicate Indexed(m: map<Key, Token>, perOwner: map<AccountId, int>)
  {
    forall k :: k in m ==> k.1 in perOwner
  }

  /** The per-account count is exact: it equals the units the account holds. */
  ghost predicate Consistent(m: map<Key, Token>, perOwner: map<AccountId, int>)
  {
    && Indexed(m, perOwner)
    && forall a :: a in perOwner ==> perOwner[a] == HolderSum(m, a)
  }

  /** The per-account count never falls below the units the account holds. */
  ghost predicate Covered(m: map<Key, Token>, perOwner: map<AccountId, int>)
  {
    && Indexed(m, perOwner)
    && forall a :: a in perOwner ==> perOwner[a] >= HolderSum(m, a)
  }

  // ---------------------------------------------------------------------------
  // Sums of balances

  /** The sum of the balances stored under the keys ks. */
  ghost function SumOf(m: map<Key, Token>, ks: set<Key>): int
    requires ks <= m.Keys
    decreases ks
  {
    if ks == {} then 0 else var k :| k in ks; m[k].balance + SumOf(m, ks - {k})
  }

  /** Total supply: the sum of the balances of all records. */
  ghost function Supply(m: map<Key, Token>): int
  {
    SumOf(m, m.Keys)
  }

  ghost function HolderKeys(m: map<Key, Token>, a: AccountId): set<Key>
  {
    set k | k in m && k.1 == a
  }

  /** The units account a holds, summed over all token ids. */
  ghost function HolderSum(m: map<Key, Token>, a: AccountId): int
  {
    SumOf(m, HolderKeys(m, a))
  }

  /** SumOf does not depend on the order in which keys are picked: any key can
      be taken out first. */
  lemma {:induction false} SumOfRemove(m: map<Key, Token>, ks: set<Key>, k: Key)
    requires ks <= m.Keys && k in ks
    ensures SumOf(m, ks) == m[k].balance + SumOf(m, ks - {k})
    decreases ks
  {
    var j :| j in ks && SumOf(m, ks) == m[j].balance + SumOf(m, ks - {j});
    if j != k {
      SumOfRemove(m, ks - {j}, k);
      SumOfRemove(m, ks - {k}, j);
      assert ks - {j} - {k} == ks - {k} - {j};
    }
  }

  /** Two maps whose balances agree on ks have the same sum over ks. */
  lemma {:induction false} SumOfAgree(m1: map<Key, Token>, m2: map<Key, Token>, ks: set<Key>)
    requires ks <= m1.Keys && ks <= m2.Keys
    requires forall k :: k in ks ==> m1[k].balance == m2[k].balance
    ensures SumOf(m1, ks) == SumOf(m2, ks)
    decreases ks
  {
    if ks != {} {
      var k :| k in ks;
      SumOfRemove(m1, ks, k);
      SumOfRemove(m2, ks, k);
      SumOfAgree(m1, m2, ks - {k});
    }
  }

  /** With every balance at least 1, the sum over ks is at least |ks|. */
  lemma {:induction false} SumOfAtLeastSize(m: map<Key, Token>, ks: set<Key>)
    requires ks <= m.Keys
    requires forall k :: k in ks ==> m[k].balance >= 1
    ensures SumOf(m, ks) >= |ks|
    decreases ks
  {
    if ks != {} {
      var k :| k in ks;
      SumOfRemove(m, ks, k);
      SumOfAtLeastSize(m, ks - {k});
    }
  }

  /** Storing v under k changes the supply by v's balance minus what k held. */
  lemma SupplyAfterSet(m: map<Key, Token>, k: Key, v: Token)
    ensures Supply(m[k := v]) == Supply(m) - Balance(m, k.0, k.1) + v.balance
  {
    var m' := m[k := v];
    SumOfRemove(m', m'.Keys, k);
    assert m'.Keys - {k} == m.Keys - {k};
    SumOfAgree(m', m, m.Keys - {k});
    if k in m {
      SumOfRemove(m, m.Keys, k);
    } else {
      assert m.Keys - {k} == m.Keys;
    }
  }

  /** Deleting the record under k lowers the supply by its balance. */
  lemma SupplyAfterRemove(m: map<Key, Token>, k: Key)
    requires k in m
    ensures Supply(m - {k}) == Supply(m) - m[k].balance
  {
    var m' := m - {k};
    SumOfRemove(m, m.Keys, k);
    assert m'.Keys == m.Keys - {k};
    SumOfAgree(m', m, m'.Keys);
  }

  /** Storing v under k changes only the holder sum of k's account. */
  lemma HolderSumAfterSet(m: map<Key, Token>, k: Key, v: Token, a: AccountId)
    ensures HolderSum(m[k := v], a) ==
            if k.1 == a then HolderSum(m, a) - Balance(m, k.0, k.1) + v.balance
            else HolderSum(m, a)
  {
    var m' := m[k := v];
    if k.1 == a {
      assert HolderKeys(m', a) == HolderKeys(m, a) + {k};
      SumOfRemove(m', HolderKeys(m', a), k);
      assert HolderKeys(m', a) - {k} == HolderKeys(m, a) - {k};
      SumOfAgree(m', m, HolderKeys(m, a) - {k});
      if k in m {
        SumOfRemove(m, HolderKeys(m, a), k);
      } else {
        assert HolderKeys(m, a) - {k} == HolderKeys(m, a);
      }
    } else {
      assert HolderKeys(m', a) == HolderKeys(m, a);
      SumOfAgree(m', m, HolderKeys(m, a));
    }
  }

  /** Deleting the record under k lowers only the holder sum of k's account. */
  lemma HolderSumAfterRemove(m: map<Key, Token>, k: Key, a: AccountId)
    requires k in m
    ensures HolderSum(m - {k}, a) ==
            if k.1 == a then HolderSum(m, a) - m[k].balance else HolderSum(m, a)
  {
    var m' := m - {k};
    if k.1 == a {
      SumOfRemove(m, HolderKeys(m, a), k);
      assert HolderKeys(m', a) == HolderKeys(m, a) - {k};
    } else {
      assert HolderKeys(m', a) == HolderKeys(m, a);
    }
    SumOfAgree(m', m, HolderKeys(m', a));
  }

  // ---------------------------------------------------------------------------
  // The operations on values

  /** nft_balance: the record's balance, or 0 when there is no record. */
  function Balance(m: map<Key, Token>, t: int, a: AccountId): int
  {
    if (t, a) in m then m[(t, a)].balance else 0
  }

  /** The per-account count, with an absent entry read as 0. */
  function Count(perOwner: map<AccountId, int>, a: AccountId): int
  {
    if a in perOwner then perOwner[a] else 0
  }

  /** nft_collect on the records: one more unit for the caller. */
  function Collected(m: map<Key, Token>, t: int, caller: AccountId): map<Key, Token>
  {
    if (t, caller) in m then
      m[(t, caller) := m[(t, caller)].(balance := m[(t, caller)].balance + 1)]
    else
      m[(t, caller) := NewToken(caller, t)]
  }

  /** nft_collect on the per-account count. */
  function CollectedIndex(perOwner: map<AccountId, int>, caller: AccountId): map<AccountId, int>
  {
    perOwner[caller := Count(perOwner, caller) + 1]
  }

  /** The checks of nft_approve: the caller's record must exist (otherwise the
      dereference throws) and name the caller as its owner. */
  function ApproveCheck(m: map<Key, Token>, t: int, caller: AccountId): Option<Error>
  {
    if (t, caller) !in m then Some(MissingRecord)
    else if m[(t, caller)].owner_id != caller then Some(NotTokenOwner)
    else None
  }

  /** nft_approve on the records: grantee gets the next approval id (except
      "__proto__", which the approvals object does not store), and the counter
      advances in every case. */
  function Approved(m: map<Key, Token>, t: int, caller: AccountId, grantee: AccountId): map<Key, Token>
    requires (t, caller) in m
  {
    var tok := m[(t, caller)];
    var ids := if grantee == ProtoKey then tok.approved_account_ids
               else tok.approved_account_ids[grantee := tok.next_approval_id];
    m[(t, caller) := tok.(approved_account_ids := ids, next_approval_id := tok.next_approval_id + 1)]
  }

  /** nft_is_approved: fails without a record; otherwise whether account is an
      approved account of the record or its owner. */
  function Approval(m: map<Key, Token>, t: int, ownerAccount: AccountId, account: AccountId): Result<bool>
  {
    if (t, ownerAccount) !in m then Err(MissingRecord)
    else
      var tok := m[(t, ownerAccount)];
      Ok(account in tok.approved_account_ids || tok.owner_id == account)
  }

  /** The two checks nft_transfer runs before any write, in their order. */
  function TransferCheck(m: map<Key, Token>, t: int, from: AccountId): Option<Error>
  {
    match Approval(m, t, from, from)
    case Err(e) => Some(e)
    case Ok(approved) =>
      if !approved then Some(NotApproved)
      else if Balance(m, t, from) <= 0 then Some(NoBalance)
      else None
  }

  /** nft_transfer on the records, as written: the caller's record loses a
      unit (and is deleted at 0), then the recipient's key is overwritten
      with a fresh one-unit record. */
  function Transferred(m: map<Key, Token>, t: int, caller: AccountId, to: AccountId): map<Key, Token>
    requires (t, caller) in m
  {
    var tok := m[(t, caller)].(balance := m[(t, caller)].balance - 1);
    var debited := if tok.balance == 0 then m - {(t, caller)} else m[(t, caller) := tok];
    debited[(t, to) := NewToken(to, t)]
  }

  /** nft_transfer on the per-account count: from loses a unit, then to gains
      one (read after from's update, which matters when to == from). */
  function TransferredIndex(perOwner: map<AccountId, int>, from: AccountId, to: AccountId): map<AccountId, int>
    requires from in perOwner
  {
    var debited := perOwner[from := perOwner[from] - 1];
    debited[to := Count(debited, to) + 1]
  }
}

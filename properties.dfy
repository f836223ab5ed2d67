/**
 What each ledger operation does to the two maps, to the total supply and to
 the per-account counts, and which invariants it keeps.
 */
module LedgerProperties {
  import opened Ledger

  // ---------------------------------------------------------------------------
  // nft_collect

  /** Collecting adds one unit to the caller's record (creating a fresh one
      when absent) and one unit to the caller's count; nothing else changes. */
  lemma CollectEffect(m: map<Key, Token>, p: map<AccountId, int>, t: int, caller: AccountId)
    ensures Balance(Collected(m, t, caller), t, caller) == Balance(m, t, caller) + 1
    ensures (t, caller) !in m ==> Collected(m, t, caller)[(t, caller)] == NewToken(caller, t)
    ensures (t, caller) in m ==>
              Collected(m, t, caller)[(t, caller)] == m[(t, caller)].(balance := m[(t, caller)].balance + 1)
    ensures forall k :: k != (t, caller) ==>
              (k in Collected(m, t, caller) <==> k in m) && (k in m ==> Collected(m, t, caller)[k] == m[k])
    ensures CollectedIndex(p, caller)[caller] == Count(p, caller) + 1
    ensures forall a :: a != caller ==>
              (a in CollectedIndex(p, caller) <==> a in p) && (a in p ==> CollectedIndex(p, caller)[a] == p[a])
  {
  }

  lemma CollectKeepsValid(m: map<Key, Token>, p: map<AccountId, int>, t: int, caller: AccountId)
    requires WellFormed(m) && Indexed(m, p)
    ensures WellFormed(Collected(m, t, caller))
    ensures Indexed(Collected(m, t, caller), CollectedIndex(p, caller))
  {
  }

  /** Every collect raises the total supply by exactly one. */
  lemma CollectSupply(m: map<Key, Token>, t: int, caller: AccountId)
    ensures Supply(Collected(m, t, caller)) == Supply(m) + 1
  {
    var v := if (t, caller) in m then m[(t, caller)].(balance := m[(t, caller)].balance + 1)
             else NewToken(caller, t);
    assert Collected(m, t, caller) == m[(t, caller) := v];
    SupplyAfterSet(m, (t, caller), v);
  }

  /** Collecting keeps the per-account count exact. */
  lemma CollectConsistent(m: map<Key, Token>, p: map<AccountId, int>, t: int, caller: AccountId)
    requires Consistent(m, p)
    ensures Consistent(Collected(m, t, caller), CollectedIndex(p, caller))
  {
    var v := if (t, caller) in m then m[(t, caller)].(balance := m[(t, caller)].balance + 1)
             else NewToken(caller, t);
    var m', p' := Collected(m, t, caller), CollectedIndex(p, caller);
    assert m' == m[(t, caller) := v];
    forall a | a in p' ensures p'[a] == HolderSum(m', a) {
      HolderSumAfterSet(m, (t, caller), v, a);
      if a == caller && caller !in p {
        assert HolderKeys(m, caller) == {};
      }
    }
  }

  // ---------------------------------------------------------------------------
  // nft_approve

  /** On a well-formed ledger the owner check never fails on its own: approve
      fails exactly when the caller holds no record of the token. */
  lemma ApproveCheckWellFormed(m: map<Key, Token>, t: int, caller: AccountId)
    requires WellFormed(m)
    ensures ApproveCheck(m, t, caller) == if (t, caller) in m then None else Some(MissingRecord)
  {
  }

  /** Approving stores the record's next approval id for the grantee (no
      approval at all is stored for "__proto__") and advances the counter;
      balances and all other records are unchanged. */
  lemma ApproveEffect(m: map<Key, Token>, t: int, caller: AccountId, grantee: AccountId)
    requires (t, caller) in m
    ensures Approved(m, t, caller, grantee).Keys == m.Keys
    ensures grantee != ProtoKey ==>
              && grantee in Approved(m, t, caller, grantee)[(t, caller)].approved_account_ids
              && Approved(m, t, caller, grantee)[(t, caller)].approved_account_ids[grantee]
                 == m[(t, caller)].next_approval_id
    ensures grantee == ProtoKey ==>
              Approved(m, t, caller, grantee)[(t, caller)].approved_account_ids
              == m[(t, caller)].approved_account_ids
    ensures Approved(m, t, caller, grantee)[(t, caller)].next_approval_id
            == m[(t, caller)].next_approval_id + 1
    ensures Approved(m, t, caller, grantee)[(t, caller)].balance == m[(t, caller)].balance
    ensures Approved(m, t, caller, grantee)[(t, caller)].owner_id == m[(t, caller)].owner_id
    ensures Approved(m, t, caller, grantee)[(t, caller)].token_id == m[(t, caller)].token_id
    ensures grantee != ProtoKey ==>
              Approved(m, t, caller, grantee)[(t, caller)].approved_account_ids.Keys
              == m[(t, caller)].approved_account_ids.Keys + {grantee}
    ensures forall g :: g != grantee && g in m[(t, caller)].approved_account_ids ==>
              Approved(m, t, caller, grantee)[(t, caller)].approved_account_ids[g]
              == m[(t, caller)].approved_account_ids[g]
    ensures forall k :: k in m && k != (t, caller) ==> Approved(m, t, caller, grantee)[k] == m[k]
  {
  }

  /** Approving the same grantee again replaces its id with a strictly larger
      one; approving "__proto__" twice stores nothing and only spends two ids. */
  lemma {:induction false} ReapproveIncreases(m: map<Key, Token>, t: int, caller: AccountId, grantee: AccountId)
    requires (t, caller) in m
    ensures var once := Approved(m, t, caller, grantee);
            var twice := Approved(once, t, caller, grantee);
            grantee != ProtoKey ==>
              twice[(t, caller)].approved_account_ids[grantee] > once[(t, caller)].approved_account_ids[grantee]
    ensures var twice := Approved(Approved(m, t, caller, grantee), t, caller, grantee);
            grantee == ProtoKey ==>
              && twice[(t, caller)].approved_account_ids == m[(t, caller)].approved_account_ids
              && twice[(t, caller)].next_approval_id == m[(t, caller)].next_approval_id + 2
  {
    ApproveEffect(m, t, caller, grantee);
    ApproveEffect(Approved(m, t, caller, grantee), t, caller, grantee);
  }

  /** Approving keeps every record well formed: the new id is the only one at
      or above the old counter, so ids stay distinct and below the new counter. */
  lemma ApproveKeepsValid(m: map<Key, Token>, p: map<AccountId, int>, t: int, caller: AccountId, grantee: AccountId)
    requires WellFormed(m) && Indexed(m, p) && (t, caller) in m
    ensures WellFormed(Approved(m, t, caller, grantee))
    ensures Indexed(Approved(m, t, caller, grantee), p)
  {
    var tok := m[(t, caller)];
    assert WellFormedToken((t, caller), tok);
    var m' := Approved(m, t, caller, grantee);
    var ids := m'[(t, caller)].approved_account_ids;
    assert forall g :: g in ids && g != grantee ==> ids[g] == tok.approved_account_ids[g] < tok.next_approval_id;
    assert ProtoKey !in ids;
    assert WellFormedToken((t, caller), m'[(t, caller)]);
  }

  /** Approving leaves the total supply and every account's holdings unchanged,
      so it keeps the per-account count exact. */
  lemma ApproveBalances(m: map<Key, Token>, p: map<AccountId, int>, t: int, caller: AccountId, grantee: AccountId)
    requires (t, caller) in m
    ensures Supply(Approved(m, t, caller, grantee)) == Supply(m)
    ensures forall a :: HolderSum(Approved(m, t, caller, grantee), a) == HolderSum(m, a)
    ensures Consistent(m, p) ==> Consistent(Approved(m, t, caller, grantee), p)
  {
    var m' := Approved(m, t, caller, grantee);
    SupplyAfterSet(m, (t, caller), m'[(t, caller)]);
    forall a ensures HolderSum(m', a) == HolderSum(m, a) {
      HolderSumAfterSet(m, (t, caller), m'[(t, caller)], a);
    }
  }

  // ---------------------------------------------------------------------------
  // nft_is_approved

  /** After the owner approves a grantee, the grantee is approved. The
      exception is "__proto__": on a well-formed ledger it is approved
      afterwards only if it is itself the holder. */
  lemma ApprovalAfterApprove(m: map<Key, Token>, t: int, caller: AccountId, grantee: AccountId)
    requires (t, caller) in m
    ensures grantee != ProtoKey ==> Approval(Approved(m, t, caller, grantee), t, caller, grantee) == Ok(true)
    ensures WellFormed(m) && grantee == ProtoKey ==>
              Approval(Approved(m, t, caller, grantee), t, caller, grantee) == Ok(caller == ProtoKey)
  {
    if WellFormed(m) {
      assert WellFormedToken((t, caller), m[(t, caller)]);
    }
  }

  /** On a well-formed ledger every holder is approved on its own record. */
  lemma ApprovalOfHolder(m: map<Key, Token>, t: int, a: AccountId)
    requires WellFormed(m)
    ensures Approval(m, t, a, a) == if (t, a) in m then Ok(true) else Err(MissingRecord)
  {
  }

  // ---------------------------------------------------------------------------
  // nft_transfer

  /** On a well-formed ledger both checks pass exactly when from holds a record
      of the token; the approval and balance checks can only fail on a ledger
      that breaks the invariant. */
  lemma TransferCheckWellFormed(m: map<Key, Token>, t: int, from: AccountId)
    requires WellFormed(m)
    ensures TransferCheck(m, t, from) == if (t, from) in m then None else Some(MissingRecord)
  {
    if (t, from) in m {
      assert WellFormedToken((t, from), m[(t, from)]);
    }
  }

  /** A transfer by from to a different account: from's record loses one unit
      and disappears at zero, to's record becomes a fresh one-unit record
      whatever it held before, and no other record changes. */
  lemma TransferEffect(m: map<Key, Token>, t: int, from: AccountId, to: AccountId)
    requires (t, from) in m && to != from
    ensures Balance(Transferred(m, t, from, to), t, from) == Balance(m, t, from) - 1
    ensures (t, from) in Transferred(m, t, from, to) <==> m[(t, from)].balance != 1
    ensures (t, from) in Transferred(m, t, from, to) ==>
              Transferred(m, t, from, to)[(t, from)] == m[(t, from)].(balance := m[(t, from)].balance - 1)
    ensures (t, to) in Transferred(m, t, from, to)
    ensures Transferred(m, t, from, to)[(t, to)] == NewToken(to, t)
    ensures forall k :: k != (t, from) && k != (t, to) ==>
              (k in Transferred(m, t, from, to) <==> k in m) &&
              (k in m ==> Transferred(m, t, from, to)[k] == m[k])
  {
  }

  /** The caller's record that nft_transfer first stores under the recipient's
      key never survives: after the debit and the final overwrite the records
      are exactly those of Transferred, as if the alias had not been written. */
  lemma TransferAliasOverwritten(m: map<Key, Token>, t: int, caller: AccountId, to: AccountId)
    requires (t, caller) in m
    ensures var aliased := m[(t, to) := m[(t, caller)]];
            var tok := aliased[(t, caller)].(balance := aliased[(t, caller)].balance - 1);
            var debited := if tok.balance == 0 then aliased - {(t, caller)} else aliased[(t, caller) := tok];
            debited[(t, to) := NewToken(to, t)] == Transferred(m, t, caller, to)
  {
    var aliased := m[(t, to) := m[(t, caller)]];
    assert aliased[(t, caller)] == m[(t, caller)];
    var tok := m[(t, caller)].(balance := m[(t, caller)].balance - 1);
    if tok.balance == 0 {
      assert (aliased - {(t, caller)})[(t, to) := NewToken(to, t)]
          == (m - {(t, caller)})[(t, to) := NewToken(to, t)];
    } else {
      assert aliased[(t, caller) := tok][(t, to) := NewToken(to, t)]
          == m[(t, caller) := tok][(t, to) := NewToken(to, t)];
    }
  }

  /** A transfer to oneself leaves only a fresh one-unit record behind. */
  lemma SelfTransferEffect(m: map<Key, Token>, t: int, from: AccountId)
    requires (t, from) in m
    ensures Transferred(m, t, from, from) == m[(t, from) := NewToken(from, t)]
  {
  }

  /** The count of from drops by one and that of to rises by one (from absent
      read as 0); a transfer to oneself leaves the counts as they were. */
  lemma TransferIndexEffect(p: map<AccountId, int>, from: AccountId, to: AccountId)
    requires from in p
    ensures to != from ==> TransferredIndex(p, from, to)[from] == p[from] - 1
    ensures to != from ==> TransferredIndex(p, from, to)[to] == Count(p, to) + 1
    ensures to == from ==> TransferredIndex(p, from, to) == p
    ensures forall a :: a != from && a != to ==>
              (a in TransferredIndex(p, from, to) <==> a in p) &&
              (a in p ==> TransferredIndex(p, from, to)[a] == p[a])
  {
  }

  /** Any transfer keeps the records well formed and every holder indexed,
      whoever the caller is. */
  lemma TransferKeepsValid(m: map<Key, Token>, p: map<AccountId, int>, t: int,
                           caller: AccountId, from: AccountId, to: AccountId)
    requires WellFormed(m) && Indexed(m, p) && (t, caller) in m && from in p
    ensures WellFormed(Transferred(m, t, caller, to))
    ensures Indexed(Transferred(m, t, caller, to), TransferredIndex(p, from, to))
  {
    assert WellFormedToken((t, caller), m[(t, caller)]);
  }

  /** The supply after a transfer by from: it loses whatever to held of the
      token (the overwrite), so it is unchanged exactly when to held nothing;
      a transfer to oneself leaves one unit where there were b. */
  lemma TransferSupply(m: map<Key, Token>, t: int, from: AccountId, to: AccountId)
    requires (t, from) in m
    ensures to != from ==> Supply(Transferred(m, t, from, to)) == Supply(m) - Balance(m, t, to)
    ensures to == from ==> Supply(Transferred(m, t, from, to)) == Supply(m) - m[(t, from)].balance + 1
  {
    var kf, kt := (t, from), (t, to);
    var tok := m[kf].(balance := m[kf].balance - 1);
    if tok.balance == 0 {
      var d := m - {kf};
      SupplyAfterRemove(m, kf);
      SupplyAfterSet(d, kt, NewToken(to, t));
    } else {
      var d := m[kf := tok];
      SupplyAfterSet(m, kf, tok);
      SupplyAfterSet(d, kt, NewToken(to, t));
    }
  }

  /** The holdings of each account after a transfer by from to a different
      account: from loses one unit, to ends with its other tokens plus one. */
  lemma TransferHolderSum(m: map<Key, Token>, t: int, from: AccountId, to: AccountId, a: AccountId)
    requires (t, from) in m && to != from
    ensures HolderSum(Transferred(m, t, from, to), a) ==
            if a == from then HolderSum(m, a) - 1
            else if a == to then HolderSum(m, a) - Balance(m, t, to) + 1
            else HolderSum(m, a)
  {
    var kf, kt := (t, from), (t, to);
    var tok := m[kf].(balance := m[kf].balance - 1);
    if tok.balance == 0 {
      var d := m - {kf};
      HolderSumAfterRemove(m, kf, a);
      HolderSumAfterSet(d, kt, NewToken(to, t), a);
    } else {
      var d := m[kf := tok];
      HolderSumAfterSet(m, kf, tok, a);
      HolderSumAfterSet(d, kt, NewToken(to, t), a);
    }
  }

  /** A transfer by from to an account holding none of the token conserves
      supply and keeps every per-account count exact. */
  lemma TransferToNewHolderConsistent(m: map<Key, Token>, p: map<AccountId, int>, t: int,
                                      from: AccountId, to: AccountId)
    requires Consistent(m, p) && (t, from) in m && to != from && (t, to) !in m
    ensures Supply(Transferred(m, t, from, to)) == Supply(m)
    ensures Consistent(Transferred(m, t, from, to), TransferredIndex(p, from, to))
  {
    TransferSupply(m, t, from, to);
    var m', p' := Transferred(m, t, from, to), TransferredIndex(p, from, to);
    forall a | a in p' ensures p'[a] == HolderSum(m', a) {
      TransferHolderSum(m, t, from, to, a);
      if a == to && to !in p {
        assert HolderKeys(m, to) == {};
      }
    }
  }

  /** When to already held b units of the token, the overwrite leaves to's
      count exactly b above what to now holds. */
  lemma TransferToHolderOvercounts(m: map<Key, Token>, p: map<AccountId, int>, t: int,
                                   from: AccountId, to: AccountId)
    requires Consistent(m, p) && (t, from) in m && to != from && (t, to) in m
    ensures TransferredIndex(p, from, to)[to]
            == HolderSum(Transferred(m, t, from, to), to) + m[(t, to)].balance
  {
    TransferHolderSum(m, t, from, to, to);
  }

  /** Whatever the recipient held, a transfer by from never lets a per-account
      count fall below the units the account holds. */
  lemma TransferCovered(m: map<Key, Token>, p: map<AccountId, int>, t: int, from: AccountId, to: AccountId)
    requires WellFormed(m) && Covered(m, p) && (t, from) in m
    ensures Covered(Transferred(m, t, from, to), TransferredIndex(p, from, to))
  {
    TransferKeepsValid(m, p, t, from, from, to);
    forall a | a in TransferredIndex(p, from, to)
      ensures TransferredIndex(p, from, to)[a] >= HolderSum(Transferred(m, t, from, to), a)
    {
      TransferCountAt(m, p, t, from, to, a);
    }
  }

  /** When the caller is not from, the count that is debited (from's) and the
      record that is debited (the caller's) belong to different accounts, so
      from's count can fall below its holdings: here paul passes the checks,
      morgan's unit goes to x, and paul is left holding 1 with a count of 0. */
  lemma TransferByOtherCallerUndercounts()
    ensures var m := map[(1, "paul") := NewToken("paul", 1), (1, "morgan") := NewToken("morgan", 1)];
            var p := map["paul" := 1, "morgan" := 1];
            && WellFormed(m) && Consistent(m, p) && TransferCheck(m, 1, "paul") == None
            && TransferredIndex(p, "paul", "x")["paul"] == 0
            && HolderSum(Transferred(m, 1, "morgan", "x"), "paul") == 1
            && !Covered(Transferred(m, 1, "morgan", "x"), TransferredIndex(p, "paul", "x"))
  {
    var m := map[(1, "paul") := NewToken("paul", 1), (1, "morgan") := NewToken("morgan", 1)];
    var p := map["paul" := 1, "morgan" := 1];
    assert HolderKeys(m, "paul") == {(1, "paul")};
    assert HolderKeys(m, "morgan") == {(1, "morgan")};
    SumOfRemove(m, {(1, "paul")}, (1, "paul"));
    SumOfRemove(m, {(1, "morgan")}, (1, "morgan"));
    assert Consistent(m, p);
    var m' := Transferred(m, 1, "morgan", "x");
    assert HolderKeys(m', "paul") == {(1, "paul")};
    SumOfRemove(m', {(1, "paul")}, (1, "paul"));
  }

  /** One account's count after a transfer by from, against its holdings. */
  lemma TransferCountAt(m: map<Key, Token>, p: map<AccountId, int>, t: int,
                        from: AccountId, to: AccountId, a: AccountId)
    requires WellFormed(m) && Covered(m, p) && (t, from) in m
    requires a in TransferredIndex(p, from, to)
    ensures TransferredIndex(p, from, to)[a] >= HolderSum(Transferred(m, t, from, to), a)
  {
    assert WellFormedToken((t, from), m[(t, from)]);
    if to == from {
      assert Transferred(m, t, from, to) == m[(t, from) := NewToken(from, t)];
      HolderSumAfterSet(m, (t, from), NewToken(from, t), a);
    } else {
      TransferHolderSum(m, t, from, to, a);
      if (t, to) in m {
        assert WellFormedToken((t, to), m[(t, to)]);
      }
      if a == to && to !in p {
        assert HolderKeys(m, to) == {};
      }
    }
  }

  /** Collecting never lets a per-account count fall below the holdings. */
  lemma CollectCovered(m: map<Key, Token>, p: map<AccountId, int>, t: int, caller: AccountId)
    requires Covered(m, p)
    ensures Covered(Collected(m, t, caller), CollectedIndex(p, caller))
  {
    var v := if (t, caller) in m then m[(t, caller)].(balance := m[(t, caller)].balance + 1)
             else NewToken(caller, t);
    var m', p' := Collected(m, t, caller), CollectedIndex(p, caller);
    assert m' == m[(t, caller) := v];
    forall a | a in p' ensures p'[a] >= HolderSum(m', a) {
      HolderSumAfterSet(m, (t, caller), v, a);
      if a == caller && caller !in p {
        assert HolderKeys(m, caller) == {};
      }
    }
  }

  // ---------------------------------------------------------------------------
  // nft_total_supply

  /** Every record holds a unit, so the supply is at least the number of
      records, and it is zero exactly when there are none. */
  lemma SupplyBounds(m: map<Key, Token>)
    requires WellFormed(m)
    ensures Supply(m) >= |m|
    ensures Supply(m) == 0 <==> m == map[]
  {
    SumOfAtLeastSize(m, m.Keys);
    if m == map[] {
      assert m.Keys == {};
    }
  }
}

/** Properties of the ledger that relate several calls or several principals. */
module LedgerProperties {
  import opened Wrappers
  import opened Ledger

  /** In the key of a colon-free principal the first colon sits right after the principal. */
  lemma FirstColonEndsPrincipal(p: Principal, t: TokenId)
    requires ColonFree(p)
    ensures Key(p, t)[|p|] == ':'
    ensures forall i :: 0 <= i < |p| ==> Key(p, t)[i] != ':'
  {
    assert Key(p, t) == p + ":" + t;
  }

  /** For colon-free principals the composite key "<principal>:<token>" determines both
      the principal and the token. */
  lemma KeyInjective(p: Principal, t: TokenId, q: Principal, u: TokenId)
    requires ColonFree(p) && ColonFree(q)
    requires Key(p, t) == Key(q, u)
    ensures p == q && t == u
  {
    var k := Key(p, t);
    FirstColonEndsPrincipal(p, t);
    FirstColonEndsPrincipal(q, u);
    assert |p| == |q|;
    assert k == p + ":" + t && k == q + ":" + u;
    assert p == k[..|p|] == q;
    assert t == k[|p| + 1..] == u;
  }

  /** The prefix scan of get_all_user_token_balances for `p` never picks up a key
      of another colon-free principal `q`, whatever its token. */
  lemma PrefixScanExcludesOthers(p: Principal, q: Principal, u: TokenId)
    requires ColonFree(p) && ColonFree(q) && p != q
    ensures !(Prefix(p) <= Key(q, u))
  {
    if Prefix(p) <= Key(q, u) {
      var k := Key(q, u);
      var t := k[|Prefix(p)|..];
      assert Key(p, t) == k;
      KeyInjective(p, t, q, u);
    }
  }

  /** A swap in either direction changes only the caller's balance of the swapped
      token: every other (principal, token) holding reads the same afterwards. */
  lemma SwapsLeaveOtherHoldings(s: State, caller: Principal, token: TokenId, amount: nat,
                                q: Principal, u: TokenId)
    requires ColonFree(caller) && ColonFree(q)
    requires q != caller || u != token
    ensures TokenBalanceOf(SwapIcpToTokenStep(s, caller, token, amount).state, q, u)
         == TokenBalanceOf(s, q, u)
    ensures TokenBalanceOf(SwapTokenToIcpStep(s, caller, token, amount).state, q, u)
         == TokenBalanceOf(s, q, u)
  {
    if Key(q, u) == Key(caller, token) {
      KeyInjective(q, u, caller, token);
    }
  }

  /** Swapping `amount` ICP into a token and then the same amount back restores the
      caller's ICP balance and the whole token table; only total swaps remember it. */
  lemma SwapRoundTrip(s: State, caller: Principal, token: TokenId, amount: nat)
    requires NoZeroBalances(s.balances)
    requires SwapIcpToTokenStep(s, caller, token, amount).result.success
    ensures var mid := SwapIcpToTokenStep(s, caller, token, amount).state;
      var back := SwapTokenToIcpStep(mid, caller, token, amount);
      && back.result.success
      && UserOf(back.state, caller).icpBalance == UserOf(s, caller).icpBalance
      && UserOf(back.state, caller).totalSwaps == UserOf(s, caller).totalSwaps + amount
      && back.state.balances == s.balances
  {
    var mid := SwapIcpToTokenStep(s, caller, token, amount).state;
    var back := SwapTokenToIcpStep(mid, caller, token, amount);
    var k := Key(caller, token);
    assert TokenBalanceOf(back.state, caller, token) == TokenBalanceOf(s, caller, token);
    assert back.state.balances - {k} == s.balances - {k};
    assert k in back.state.balances <==> k in s.balances;
    forall x | x in s.balances || x in back.state.balances
      ensures x in s.balances && x in back.state.balances && back.state.balances[x] == s.balances[x]
    {
      if x != k {
        assert x in s.balances - {k} || x in back.state.balances - {k};
      }
    }
  }

  /** After set_default_swap_amount(amount), get_default_swap_amount answers `amount`
      and the caller's balance and totals read as before. */
  lemma SetThenGetDefault(s: State, caller: Principal, amount: nat)
    ensures var after := SetDefaultStep(s, caller, amount).0;
      && UserOf(after, caller) == UserOf(s, caller).(defaultSwapAmount := amount)
      && caller in after.users
  {
  }
}

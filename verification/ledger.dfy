/** The backend canister: a per-principal ledger of ICP minor units and of token
    holdings, swapped 1:1.

    Storage is two maps: `users` from principal to `UserData`, and `balances` from the
    composite text key "<principal>:<token>" to a token amount. The pure step functions
    below say what each update endpoint does to a `State` value; the class `Canister`
    holds the two maps as fields and implements every endpoint step by step, proved
    equal to its step function. */
module Ledger {
  import opened Wrappers

  /** A principal in its textual form; the caller of an endpoint is passed explicitly. */
  type Principal = string
  type TokenId = string

  datatype UserData = UserData(
    defaultSwapAmount: nat,
    icpBalance: nat,
    totalDeposits: nat,
    totalSwaps: nat)

  /** The record a principal without a stored record reads as. */
  const EmptyUser := UserData(0, 0, 0, 0)

  /** The human-readable `message` of a transaction result, kept structured: the
      number-to-text formatting is not modelled. */
  datatype TxMessage =
    | DepositMustBePositive
    | Deposited(amount: nat)
    | SwapMustBePositive
    | InsufficientIcp(available: nat, required: nat)
    | SwappedIcpToToken(amount: nat, token: TokenId)
    | InsufficientToken(token: TokenId, available: nat, required: nat)
    | SwappedTokenToIcp(amount: nat, token: TokenId)

  datatype TransactionResult = TransactionResult(
    success: bool,
    message: TxMessage,
    newIcpBalance: nat,
    newTokenBalance: Option<nat>)

  datatype UserPortfolio = UserPortfolio(
    icpBalance: nat,
    defaultSwapAmount: nat,
    tokenBalances: seq<(TokenId, nat)>,
    totalDeposits: nat,
    totalSwaps: nat)

  datatype State = State(users: map<Principal, UserData>, balances: map<string, nat>)

  /** The outcome of an update endpoint: the new storage and the value returned. */
  datatype Step = Step(state: State, result: TransactionResult)

  // ---------------------------------------------------------------------------
  // Composite keys

  function Prefix(p: Principal): string {
    p + ":"
  }

  function Key(p: Principal, t: TokenId): (k: string)
    ensures |k| == |p| + 1 + |t|
  {
    Prefix(p) + t
  }

  /** Textual principals never contain a colon (they are base-32 groups joined by '-'). */
  predicate ColonFree(p: Principal) {
    forall i :: 0 <= i < |p| ==> p[i] != ':'
  }

  /** The token table never stores a zero balance. */
  ghost predicate NoZeroBalances(balances: map<string, nat>) {
    forall k :: k in balances ==> balances[k] > 0
  }

  /** `mine` is exactly principal `p`'s part of the token table, with the prefix stripped. */
  ghost predicate IsHoldingsOf(balances: map<string, nat>, p: Principal, mine: map<TokenId, nat>) {
    && (forall t :: t in mine <==> Key(p, t) in balances)
    && (forall t :: t in mine ==> mine[t] == balances[Key(p, t)])
  }

  // ---------------------------------------------------------------------------
  // Storage helpers on values

  /** get_or_create_user_data: the stored record, or the all-zero one; nothing is inserted. */
  function UserOf(s: State, p: Principal): (u: UserData)
    ensures p !in s.users ==> u == EmptyUser
    ensures p in s.users ==> u == s.users[p]
  {
    if p in s.users then s.users[p] else EmptyUser
  }

  /** get_user_token_balance: a missing key reads as 0. */
  function TokenBalanceOf(s: State, p: Principal, t: TokenId): (b: nat)
    ensures Key(p, t) !in s.balances ==> b == 0
    ensures Key(p, t) in s.balances ==> b == s.balances[Key(p, t)]
    ensures NoZeroBalances(s.balances) ==> (b > 0 <==> Key(p, t) in s.balances)
  {
    if Key(p, t) in s.balances then s.balances[Key(p, t)] else 0
  }

  /** update_user_data: insert or overwrite the record of `p`. */
  function WithUser(s: State, p: Principal, d: UserData): (r: State)
    ensures UserOf(r, p) == d && p in r.users
    ensures r.users - {p} == s.users - {p}
    ensures r.balances == s.balances
  {
    State(s.users[p := d], s.balances)
  }

  /** update_user_token_balance: a positive balance is stored, zero removes the key. */
  function WithTokenBalance(s: State, p: Principal, t: TokenId, b: nat): (r: State)
    ensures TokenBalanceOf(r, p, t) == b
    ensures (Key(p, t) in r.balances) == (b > 0)
    ensures r.balances - {Key(p, t)} == s.balances - {Key(p, t)}
    ensures r.users == s.users
    ensures NoZeroBalances(s.balances) ==> NoZeroBalances(r.balances)
  {
    var k := Key(p, t);
    State(s.users, if b > 0 then s.balances[k := b] else s.balances - {k})
  }

  // ---------------------------------------------------------------------------
  // The update endpoints as step functions

  /** set_default_swap_amount: stores `amount` (creating the record) and returns it. */
  function SetDefaultStep(s: State, caller: Principal, amount: nat): (r: (State, nat))
    ensures r.1 == amount
    ensures UserOf(r.0, caller).defaultSwapAmount == amount
    ensures UserOf(r.0, caller).icpBalance == UserOf(s, caller).icpBalance
    ensures UserOf(r.0, caller).totalDeposits == UserOf(s, caller).totalDeposits
    ensures UserOf(r.0, caller).totalSwaps == UserOf(s, caller).totalSwaps
    ensures r.0.users - {caller} == s.users - {caller} && r.0.balances == s.balances
  {
    var u := UserOf(s, caller);
    (WithUser(s, caller, u.(defaultSwapAmount := amount)), amount)
  }

  /** deposit_icp: a zero deposit fails and changes nothing; otherwise balance and
      total deposits both grow by `amount`, and the new balance is reported. */
  function DepositStep(s: State, caller: Principal, amount: nat): (r: Step)
    ensures r.result.success <==> amount > 0
    ensures amount == 0 ==> r.state == s && r.result.newIcpBalance == 0
    ensures amount > 0 ==>
      var before, after := UserOf(s, caller), UserOf(r.state, caller);
      && after.icpBalance == before.icpBalance + amount
      && after.totalDeposits == before.totalDeposits + amount
      && after.defaultSwapAmount == before.defaultSwapAmount
      && after.totalSwaps == before.totalSwaps
      && r.result.newIcpBalance == after.icpBalance
    ensures r.result.newTokenBalance == None
    ensures r.state.users - {caller} == s.users - {caller} && r.state.balances == s.balances
  {
    if amount == 0 then
      Step(s, TransactionResult(false, DepositMustBePositive, 0, None))
    else
      var u := UserOf(s, caller);
      var u' := u.(icpBalance := u.icpBalance + amount, totalDeposits := u.totalDeposits + amount);
      Step(WithUser(s, caller, u'), TransactionResult(true, Deposited(amount), u'.icpBalance, None))
  }

  /** swap_icp_to_token: 1:1 from ICP into `token`; fails without a change when the
      amount is zero or exceeds the ICP balance. */
  function SwapIcpToTokenStep(s: State, caller: Principal, token: TokenId, amount: nat): (r: Step)
    ensures r.result.success <==> 0 < amount <= UserOf(s, caller).icpBalance
    ensures !r.result.success ==> r.state == s && r.result.newTokenBalance == None
    ensures amount == 0 ==> r.result.newIcpBalance == 0
    ensures amount > 0 && !r.result.success ==>
      r.result.newIcpBalance == UserOf(s, caller).icpBalance
    ensures r.result.success ==>
      var before, after := UserOf(s, caller), UserOf(r.state, caller);
      && after.icpBalance == before.icpBalance - amount
      && after.totalSwaps == before.totalSwaps + amount
      && after.totalDeposits == before.totalDeposits
      && after.defaultSwapAmount == before.defaultSwapAmount
      && TokenBalanceOf(r.state, caller, token) == TokenBalanceOf(s, caller, token) + amount
      && after.icpBalance + TokenBalanceOf(r.state, caller, token)
         == before.icpBalance + TokenBalanceOf(s, caller, token)
      && r.result.newIcpBalance == after.icpBalance
      && r.result.newTokenBalance == Some(TokenBalanceOf(r.state, caller, token))
    ensures r.state.users - {caller} == s.users - {caller}
    ensures r.state.balances - {Key(caller, token)} == s.balances - {Key(caller, token)}
    ensures NoZeroBalances(s.balances) ==> NoZeroBalances(r.state.balances)
  {
    if amount == 0 then
      Step(s, TransactionResult(false, SwapMustBePositive, 0, None))
    else
      var u := UserOf(s, caller);
      if u.icpBalance < amount then
        Step(s, TransactionResult(false, InsufficientIcp(u.icpBalance, amount), u.icpBalance, None))
      else
        var u' := u.(icpBalance := u.icpBalance - amount, totalSwaps := u.totalSwaps + amount);
        var held := TokenBalanceOf(s, caller, token) + amount;
        var s' := WithTokenBalance(WithUser(s, caller, u'), caller, token, held);
        Step(s', TransactionResult(true, SwappedIcpToToken(amount, token), u'.icpBalance, Some(held)))
  }

  /** swap_token_to_icp: 1:1 from `token` back into ICP; fails without a change when
      the amount is zero or exceeds the token balance (reporting an ICP balance of 0);
      total swaps are not counted on this direction. */
  function SwapTokenToIcpStep(s: State, caller: Principal, token: TokenId, amount: nat): (r: Step)
    ensures r.result.success <==> 0 < amount <= TokenBalanceOf(s, caller, token)
    ensures !r.result.success ==> r.state == s && r.result.newIcpBalance == 0
    ensures amount > 0 && !r.result.success ==>
      r.result.newTokenBalance == Some(TokenBalanceOf(s, caller, token))
    ensures r.result.success ==>
      var before, after := UserOf(s, caller), UserOf(r.state, caller);
      && after.icpBalance == before.icpBalance + amount
      && after.totalSwaps == before.totalSwaps
      && after.totalDeposits == before.totalDeposits
      && after.defaultSwapAmount == before.defaultSwapAmount
      && TokenBalanceOf(r.state, caller, token) == TokenBalanceOf(s, caller, token) - amount
      && after.icpBalance + TokenBalanceOf(r.state, caller, token)
         == before.icpBalance + TokenBalanceOf(s, caller, token)
      && r.result.newIcpBalance == after.icpBalance
      && r.result.newTokenBalance == Some(TokenBalanceOf(r.state, caller, token))
    ensures r.state.users - {caller} == s.users - {caller}
    ensures r.state.balances - {Key(caller, token)} == s.balances - {Key(caller, token)}
    ensures NoZeroBalances(s.balances) ==> NoZeroBalances(r.state.balances)
  {
    if amount == 0 then
      Step(s, TransactionResult(false, SwapMustBePositive, 0, None))
    else
      var held := TokenBalanceOf(s, caller, token);
      if held < amount then
        Step(s, TransactionResult(false, InsufficientToken(token, held, amount), 0, Some(held)))
      else
        var u := UserOf(s, caller);
        var u' := u.(icpBalance := u.icpBalance + amount);
        var s' := WithTokenBalance(WithUser(s, caller, u'), caller, token, held - amount);
        Step(s', TransactionResult(true, SwappedTokenToIcp(amount, token), u'.icpBalance, Some(held - amount)))
  }

  // ---------------------------------------------------------------------------
  // The canister object

  class Canister {
    var users: map<Principal, UserData>
    var tokenBalances: map<string, nat>

    ghost predicate Valid()
      reads this
    {
      NoZeroBalances(tokenBalances)
    }

    function Storage(): State
      reads this
    {
      State(users, tokenBalances)
    }

    constructor ()
      ensures Valid() && users == map[] && tokenBalances == map[]
    {
      users := map[];
      tokenBalances := map[];
    }

    method UpdateUserData(p: Principal, data: UserData)
      modifies this
      ensures Storage() == WithUser(old(Storage()), p, data)
    {
      users := users[p := data];
    }

    method UpdateUserTokenBalance(p: Principal, t: TokenId, balance: nat)
      modifies this
      ensures Storage() == WithTokenBalance(old(Storage()), p, t, balance)
    {
      var key := Key(p, t);
      if balance > 0 {
        tokenBalances := tokenBalances[key := balance];
      } else {
        tokenBalances := tokenBalances - {key};
      }
    }

    /** get_all_user_token_balances: scans the whole table and keeps the keys that
        start with "<p>:", with that prefix stripped. */
    method GetAllUserTokenBalances(p: Principal) returns (mine: map<TokenId, nat>)
      ensures IsHoldingsOf(tokenBalances, p, mine)
    {
      var prefix := Prefix(p);
      mine := map[];
      var todo := tokenBalances.Keys;
      while todo != {}
        invariant todo <= tokenBalances.Keys
        invariant forall t :: t in mine <==> Key(p, t) in tokenBalances && Key(p, t) !in todo
        invariant forall t :: t in mine ==> mine[t] == tokenBalances[Key(p, t)]
        decreases todo
      {
        var k :| k in todo;
        if prefix <= k {
          var t := k[|prefix|..];
          assert Key(p, t) == k;
          mine := mine[t := tokenBalances[k]];
        }
        todo := todo - {k};
      }
    }

    /** set_default_swap_amount */
    method SetDefaultSwapAmount(caller: Principal, amount: nat) returns (r: nat)
      requires Valid()
      modifies this
      ensures Valid()
      ensures (Storage(), r) == SetDefaultStep(old(Storage()), caller, amount)
    {
      var data := UserOf(Storage(), caller);
      data := data.(defaultSwapAmount := amount);
      UpdateUserData(caller, data);
      r := amount;
    }

    /** get_default_swap_amount */
    function GetDefaultSwapAmount(caller: Principal): (r: nat)
      reads this
      ensures caller !in users ==> r == 0
      ensures caller in users ==> r == users[caller].defaultSwapAmount
    {
      UserOf(Storage(), caller).defaultSwapAmount
    }

    /** deposit_icp */
    method DepositIcp(caller: Principal, amount: nat) returns (res: TransactionResult)
      requires Valid()
      modifies this
      ensures Valid()
      ensures Step(Storage(), res) == DepositStep(old(Storage()), caller, amount)
    {
      if amount == 0 {
        return TransactionResult(false, DepositMustBePositive, 0, None);
      }
      var data := UserOf(Storage(), caller);
      data := data.(icpBalance := data.icpBalance + amount);
      data := data.(totalDeposits := data.totalDeposits + amount);
      UpdateUserData(caller, data);
      res := TransactionResult(true, Deposited(amount), data.icpBalance, None);
    }

    /** get_user_icp_balance */
    function GetUserIcpBalance(caller: Principal): (r: nat)
      reads this
      ensures caller !in users ==> r == 0
      ensures caller in users ==> r == users[caller].icpBalance
    {
      UserOf(Storage(), caller).icpBalance
    }

    /** swap_icp_to_token */
    method SwapIcpToToken(caller: Principal, token: TokenId, amount: nat) returns (res: TransactionResult)
      requires Valid()
      modifies this
      ensures Valid()
      ensures Step(Storage(), res) == SwapIcpToTokenStep(old(Storage()), caller, token, amount)
    {
      if amount == 0 {
        return TransactionResult(false, SwapMustBePositive, 0, None);
      }
      var data := UserOf(Storage(), caller);
      if data.icpBalance < amount {
        return TransactionResult(false, InsufficientIcp(data.icpBalance, amount), data.icpBalance, None);
      }
      data := data.(icpBalance := data.icpBalance - amount);
      data := data.(totalSwaps := data.totalSwaps + amount);
      var current := TokenBalanceOf(Storage(), caller, token);
      var updated := current + amount;
      UpdateUserData(caller, data);
      UpdateUserTokenBalance(caller, token, updated);
      res := TransactionResult(true, SwappedIcpToToken(amount, token), data.icpBalance, Some(updated));
    }

    /** swap_token_to_icp */
    method SwapTokenToIcp(caller: Principal, token: TokenId, amount: nat) returns (res: TransactionResult)
      requires Valid()
      modifies this
      ensures Valid()
      ensures Step(Storage(), res) == SwapTokenToIcpStep(old(Storage()), caller, token, amount)
    {
      if amount == 0 {
        return TransactionResult(false, SwapMustBePositive, 0, None);
      }
      var current := TokenBalanceOf(Storage(), caller, token);
      if current < amount {
        return TransactionResult(false, InsufficientToken(token, current, amount), 0, Some(current));
      }
      var data := UserOf(Storage(), caller);
      data := data.(icpBalance := data.icpBalance + amount);
      var updated := current - amount;
      UpdateUserData(caller, data);
      UpdateUserTokenBalance(caller, token, updated);
      res := TransactionResult(true, SwappedTokenToIcp(amount, token), data.icpBalance, Some(updated));
    }

    /** get_user_portfolio: the caller's record and the caller's holdings as a list of
        (token, amount) pairs, one per token, in no particular order. */
    method GetUserPortfolio(caller: Principal) returns (pf: UserPortfolio)
      ensures var u := UserOf(Storage(), caller);
        && pf.icpBalance == u.icpBalance
        && pf.defaultSwapAmount == u.defaultSwapAmount
        && pf.totalDeposits == u.totalDeposits
        && pf.totalSwaps == u.totalSwaps
      ensures forall i, j :: 0 <= i < j < |pf.tokenBalances| ==> pf.tokenBalances[i].0 != pf.tokenBalances[j].0
      ensures forall i :: 0 <= i < |pf.tokenBalances| ==>
        Key(caller, pf.tokenBalances[i].0) in tokenBalances
        && pf.tokenBalances[i].1 == tokenBalances[Key(caller, pf.tokenBalances[i].0)]
      ensures forall t :: Key(caller, t) in tokenBalances ==> t in EntryTokens(pf.tokenBalances)
    {
      var data := UserOf(Storage(), caller);
      var mine := GetAllUserTokenBalances(caller);
      var entries := EntriesOf(mine);
      pf := UserPortfolio(data.icpBalance, data.defaultSwapAmount, entries, data.totalDeposits, data.totalSwaps);
    }

    /** get_token_balance */
    function GetTokenBalance(caller: Principal, token: TokenId): (r: nat)
      reads this
      ensures Key(caller, token) !in tokenBalances ==> r == 0
      ensures Key(caller, token) in tokenBalances ==> r == tokenBalances[Key(caller, token)]
      ensures Valid() ==> (r > 0 <==> Key(caller, token) in tokenBalances)
    {
      TokenBalanceOf(Storage(), caller, token)
    }
  }

  /** The pairs of a map as a list, each key once, in no particular order. */
  method EntriesOf(m: map<TokenId, nat>) returns (entries: seq<(TokenId, nat)>)
    ensures forall i :: 0 <= i < |entries| ==> entries[i].0 in m && entries[i].1 == m[entries[i].0]
    ensures forall i, j :: 0 <= i < j < |entries| ==> entries[i].0 != entries[j].0
    ensures forall t :: t in m ==> t in EntryTokens(entries)
  {
    entries := [];
    var rest := m;
    while rest != map[]
      invariant rest.Keys <= m.Keys
      invariant forall t :: t in rest ==> rest[t] == m[t]
      invariant forall i :: 0 <= i < |entries| ==>
        entries[i].0 in m && entries[i].0 !in rest && entries[i].1 == m[entries[i].0]
      invariant forall i, j :: 0 <= i < j < |entries| ==> entries[i].0 != entries[j].0
      invariant forall t :: t in m ==> t in rest || t in EntryTokens(entries)
      decreases |rest|
    {
      var t :| t in rest;
      EntryTokensAppend(entries, (t, rest[t]));
      entries := entries + [(t, rest[t])];
      rest := rest - {t};
    }
  }

  /** The tokens named by a list of portfolio entries. */
  function EntryTokens(entries: seq<(TokenId, nat)>): set<TokenId> {
    set i | 0 <= i < |entries| :: entries[i].0
  }

  lemma EntryTokensAppend(entries: seq<(TokenId, nat)>, e: (TokenId, nat))
    ensures EntryTokens(entries + [e]) == EntryTokens(entries) + {e.0}
  {
    var longer := entries + [e];
    assert longer[|entries|].0 == e.0;
    forall t | t in EntryTokens(entries)
      ensures t in EntryTokens(longer)
    {
      var i :| 0 <= i < |entries| && entries[i].0 == t;
      assert longer[i].0 == t;
    }
  }
}

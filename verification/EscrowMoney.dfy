/** How payments and refunds move the total of all accounts. */
module EscrowMoney {
  import opened Base
  import opened Escrow
  import opened EscrowSafety

  ghost function Held(u: User): int {
    u.pending + u.locked
  }

  lemma HoldingsUpdate(users: map<Address, User>, a: Address, u: User)
    ensures Holdings(users[a := u]) == Holdings(users)[a := Held(u)]
    ensures Held(UserAt(users, a)) == if a in Holdings(users) then Holdings(users)[a] else 0
  {
  }

  lemma TotalUpdate(users: map<Address, User>, a: Address, u: User)
    ensures Total(users[a := u]) == Total(users) - Held(UserAt(users, a)) + Held(u)
  {
    hide Sum;
    hide Holdings;
    hide Held;
    hide UserAt;
    HoldingsUpdate(users, a, u);
    SumUpdate(Holdings(users), a, Held(u));
  }

  lemma HeldWithinTotal(users: map<Address, User>, a: Address)
    ensures 0 <= Held(UserAt(users, a)) <= Total(users)
  {
    hide Sum;
    var h := Holdings(users);
    forall k | k in h ensures h[k] >= 0 {
      assert h[k] == Held(UserAt(users, k));
    }
    SumNonNegative(h);
    if a in users {
      assert h[a] == Held(users[a]);
    }
  }

  /** What a list of payments gives to one account: several entries may name it. */
  ghost function PaidTo(pays: seq<Payment>, a: Address): nat {
    if pays == [] then 0
    else
      var last := pays[|pays| - 1];
      PaidTo(pays[..|pays| - 1], a) + (if last.to == a then last.amount else 0)
  }

  lemma {:induction false} PaidWithinSum(pays: seq<Payment>, a: Address)
    ensures PaidTo(pays, a) <= SumPays(pays)
  {
    if pays != [] {
      PaidWithinSum(pays[..|pays| - 1], a);
    }
  }

  /** Payments touch pending money only, and each account gets all its entries, wrapped to 256 bits. */
  lemma {:induction false} CreditAllGives(users: map<Address, User>, pays: seq<Payment>, a: Address)
    ensures var u, u' := UserAt(users, a), UserAt(CreditAll(users, pays), a);
            u' == u.(pending := U256(u.pending + PaidTo(pays, a)))
  {
    hide U256;
    var u := UserAt(users, a);
    if pays == [] {
      WrapTurns(u.pending);
    } else {
      var front, last := pays[..|pays| - 1], pays[|pays| - 1];
      CreditAllGives(users, front, a);
      WrapPlus(u.pending + PaidTo(front, a), last.amount);
    }
  }

  lemma {:induction false} CreditAllTotal(users: map<Address, User>, pays: seq<Payment>)
    ensures U256(Total(CreditAll(users, pays))) == U256(Total(users) + SumPays(pays))
    ensures Total(users) + SumPays(pays) < TWO256 ==> Total(CreditAll(users, pays)) == Total(users) + SumPays(pays)
  {
    hide U256;
    hide Total;
    if pays != [] {
      var front, last := pays[..|pays| - 1], pays[|pays| - 1];
      CreditAllTotal(users, front);
      CreditTotal(CreditAll(users, front), last);
      WrapPlus(Total(users) + SumPays(front), last.amount);
      WrapPlus(Total(CreditAll(users, front)), last.amount);
    }
  }

  lemma CreditTotal(users: map<Address, User>, p: Payment)
    ensures U256(Total(Credit(users, p))) == U256(Total(users) + p.amount)
    ensures Total(users) + p.amount < TWO256 ==> Total(Credit(users, p)) == Total(users) + p.amount
  {
    hide U256;
    hide Total;
    hide UserAt;
    hide Held;
    var u := UserAt(users, p.to);
    var u' := User(u.nextNonce, u.locked, U256(u.pending + p.amount));
    TotalUpdate(users, p.to, u');
    HeldWithinTotal(users, p.to);
    CreditHeld(Total(users), u, u', p.amount);
  }

  lemma CreditHeld(total: int, u: User, u': User, amount: uint64)
    requires u' == User(u.nextNonce, u.locked, U256(u.pending + amount))
    ensures U256(total - Held(u) + Held(u')) == U256(total + amount)
    ensures Held(u) <= total && total + amount < TWO256 ==> Held(u') == Held(u) + amount
  {
  }

  /** A refund takes `paid` away from the sum of all accounts, modulo 2^256. */
  lemma RefundTotal(users: map<Address, User>, sender: Address, price: uint64, paid: nat)
    ensures U256(Total(Refund(users, sender, price, paid))) == U256(Total(users) - paid)
  {
    hide U256;
    hide Total;
    hide UserAt;
    hide Held;
    var u := UserAt(users, sender);
    var u' := User(u.nextNonce, U256(u.locked - price), U256(u.pending + U256(price - paid)));
    TotalUpdate(users, sender, u');
    RefundHeld(Total(users), u, u', price, paid);
  }

  lemma RefundHeld(total: int, u: User, u': User, price: uint64, paid: nat)
    requires u' == User(u.nextNonce, U256(u.locked - price), U256(u.pending + U256(price - paid)))
    ensures U256(total - Held(u) + Held(u')) == U256(total - paid)
  {
    hide U256;
    RefundArithmetic(total, u.locked, u.pending, price, paid);
    assert Held(u) == u.pending + u.locked;
    assert Held(u') == U256(u.pending + U256(price - paid)) + U256(u.locked - price);
  }

  lemma RefundArithmetic(total: int, locked: int, pending: int, price: int, paid: int)
    ensures U256(total - (pending + locked) + (U256(pending + U256(price - paid)) + U256(locked - price))) == U256(total - paid)
  {
  }

  /**
   The subtraction of a refund underflows unless the sender's pending money makes up for what the
   payments took beyond the price; exactly then does the sum of all accounts fall by `paid`.
   */
  lemma RefundExactIff(users: map<Address, User>, sender: Address, price: uint64, paid: nat)
    requires UserAt(users, sender).locked >= price
    requires Total(users) < TWO256 && paid < TWO256
    ensures Total(Refund(users, sender, price, paid)) == Total(users) - paid
            <==> UserAt(users, sender).pending + price >= paid
    ensures UserAt(Refund(users, sender, price, paid), sender).locked == UserAt(users, sender).locked - price
  {
    hide U256;
    hide Total;
    hide UserAt;
    hide Held;
    var u := UserAt(users, sender);
    var u' := User(u.nextNonce, U256(u.locked - price), U256(u.pending + U256(price - paid)));
    HeldWithinTotal(users, sender);
    TotalUpdate(users, sender, u');
    RefundHeldExact(Total(users), u, u', price, paid);
    UserWritten(users, sender, u');
  }

  lemma UserWritten(users: map<Address, User>, a: Address, u: User)
    ensures UserAt(users[a := u], a) == u
  {
  }

  lemma RefundHeldExact(total: int, u: User, u': User, price: uint64, paid: nat)
    requires u' == User(u.nextNonce, U256(u.locked - price), U256(u.pending + U256(price - paid)))
    requires u.locked >= price && Held(u) <= total < TWO256 && paid < TWO256
    ensures Held(u') == Held(u) - paid <==> u.pending + price >= paid
    ensures u'.locked == u.locked - price
  {
    hide U256;
    WrapTurns(u.locked - price);
    if u.pending + price >= paid {
      RefundFits(u.pending, price, paid);
    } else {
      RefundUnderflows(u.pending, price, paid);
    }
  }

  lemma RefundFits(pending: nat, price: nat, paid: nat)
    requires paid <= pending + price < TWO256 && paid < TWO256
    ensures U256(pending + U256(price - paid)) == pending + price - paid
  {
  }

  lemma RefundUnderflows(pending: nat, price: nat, paid: nat)
    requires pending + price < paid < TWO256
    ensures U256(pending + U256(price - paid)) == pending + price - paid + TWO256
  {
  }

  lemma {:induction false} SumPaysAppend(p: seq<Payment>, q: seq<Payment>)
    ensures SumPays(p + q) == SumPays(p) + SumPays(q)
  {
    if q == [] {
      assert p + q == p;
    } else {
      SumPaysAppend(p, q[..|q| - 1]);
      assert (p + q)[..|p + q| - 1] == p + q[..|q| - 1];
    }
  }

  /** A list of payments costs at most its length times its dearest entry. */
  lemma {:induction false} SumPaysBound(pays: seq<Payment>, top: nat)
    requires forall i | 0 <= i < |pays| :: pays[i].amount <= top
    ensures SumPays(pays) <= |pays| * top
  {
    if pays != [] {
      SumPaysBound(pays[..|pays| - 1], top);
      Distribute(|pays| - 1, 1, top);
    }
  }

  /** `pay_managers` returns the fee times the number of managers, which is what it paid. */
  lemma {:induction false} SumManagerPays(j: Job, managers: seq<Address>)
    ensures SumPays(ManagerPays(j, managers)) == |managers| * j.managementPrice
  {
    if managers != [] {
      var front := managers[..|managers| - 1];
      SumManagerPays(j, front);
      assert ManagerPays(j, managers)[..|managers| - 1] == ManagerPays(j, front);
      Distribute(|managers| - 1, 1, j.managementPrice);
    }
  }
}

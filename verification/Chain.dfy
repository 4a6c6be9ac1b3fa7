/** The ordered chain of checks and how registration keeps it sorted. */
module Chain {

  /** What a check does. Built-in rules consult or change the gate's own state; an external
      rule (margin, circuit, freeze quantity, price band, anomaly, plugins, subprocesses)
      only answers. */
  datatype Rule =
    | KillSwitchRule
    | ConfirmationRequired
    | OrderValue
    | DailyOrderCount
    | PerSecondRate
    | RateLimit
    | ClientOrderId
    | DuplicateOrder
    | DailyValueCap
    | OffHoursBlock
    | MarketHours
    | External(name: string)

  datatype Check = Check(rule: Rule, order: int, counted: bool)

  const KILL_SWITCH := Check(KillSwitchRule, 100, false)
  const CONFIRMATION := Check(ConfirmationRequired, 200, false)
  const ORDER_VALUE := Check(OrderValue, 300, true)
  const DAILY_ORDER_COUNT := Check(DailyOrderCount, 500, true)
  const PER_SECOND_RATE := Check(PerSecondRate, 600, true)
  const RATE_LIMIT := Check(RateLimit, 700, true)
  const CLIENT_ORDER_ID := Check(ClientOrderId, 800, true)
  const DUPLICATE_ORDER := Check(DuplicateOrder, 900, true)
  const DAILY_VALUE := Check(DailyValueCap, 1000, true)

  const OFF_HOURS := Check(OffHoursBlock, 1200, true)
  const MARKET_HOURS := Check(MarketHours, 1300, true)

  const BUILTINS: seq<Check> := [
    KILL_SWITCH,
    CONFIRMATION,
    ORDER_VALUE,
    Check(External("margin_check"), 325, false),
    Check(External("circuit_limit"), 350, true),
    Check(External("quantity_limit"), 400, true),
    DAILY_ORDER_COUNT,
    PER_SECOND_RATE,
    RATE_LIMIT,
    CLIENT_ORDER_ID,
    DUPLICATE_ORDER,
    DAILY_VALUE,
    Check(External("otr_band"), 1050, true),
    Check(External("anomaly_multiplier"), 1100, true),
    OFF_HOURS,
    MARKET_HOURS]

  ghost predicate Ascending(cs: seq<Check>) {
    forall i, j :: 0 <= i < j < |cs| ==> cs[i].order <= cs[j].order
  }

  /** Where a new check ends up: behind the last one that is not strictly greater. */
  function Position(cs: seq<Check>, c: Check): (p: nat)
    ensures p <= |cs|
    ensures p > 0 ==> cs[p - 1].order <= c.order
    ensures forall i :: p <= i < |cs| ==> c.order < cs[i].order
  {
    if cs == [] || cs[|cs| - 1].order <= c.order then |cs| else Position(cs[..|cs| - 1], c)
  }

  function Insert(cs: seq<Check>, c: Check): seq<Check> {
    cs[..Position(cs, c)] + [c] + cs[Position(cs, c)..]
  }

  /** The chain after a sequence of registrations on an empty guard. */
  function Registered(regs: seq<Check>): seq<Check> {
    if regs == [] then [] else Insert(Registered(regs[..|regs| - 1]), regs[|regs| - 1])
  }

  lemma NoneRegistered(regs: seq<Check>)
    ensures Registered(regs[..0]) == []
  {
  }

  lemma OneMoreRegistered(regs: seq<Check>, i: nat)
    requires i < |regs|
    ensures Registered(regs[..i + 1]) == Insert(Registered(regs[..i]), regs[i])
  {
    assert regs[..i + 1][..i] == regs[..i];
  }

  /** The registrations with a given order value, in sequence. */
  function WithOrder(cs: seq<Check>, order: int): seq<Check> {
    if cs == [] then []
    else if cs[0].order == order then [cs[0]] + WithOrder(cs[1..], order)
    else WithOrder(cs[1..], order)
  }

  lemma {:induction false} WithOrderAppend(a: seq<Check>, b: seq<Check>, order: int)
    ensures WithOrder(a + b, order) == WithOrder(a, order) + WithOrder(b, order)
  {
    if a == [] {
      assert a + b == b;
    } else {
      WithOrderAppend(a[1..], b, order);
      assert (a + b)[0] == a[0] && (a + b)[1..] == a[1..] + b;
    }
  }

  lemma {:induction false} NoneWithOrder(cs: seq<Check>, order: int)
    ensures WithOrder(cs, order) == [] <==> forall i :: 0 <= i < |cs| ==> cs[i].order != order
  {
    if cs != [] {
      NoneWithOrder(cs[1..], order);
      assert cs == [cs[0]] + cs[1..];
    }
  }

  /** Two chains with the same registrations, in the same sequence, for every order value. */
  ghost predicate SamePerOrder(a: seq<Check>, b: seq<Check>) {
    forall order :: WithOrder(a, order) == WithOrder(b, order)
  }

  lemma InsertIsStable(cs: seq<Check>, c: Check)
    ensures SamePerOrder(Insert(cs, c), cs + [c])
  {
    var p := Position(cs, c);
    assert cs[..p] + cs[p..] == cs;
    forall order ensures WithOrder(Insert(cs, c), order) == WithOrder(cs + [c], order) {
      BehindTheOthers(cs[..p], cs[p..], c, order);
    }
  }

  lemma BehindTheOthers(front: seq<Check>, back: seq<Check>, c: Check, order: int)
    requires forall i :: 0 <= i < |back| ==> c.order < back[i].order
    ensures WithOrder(front + [c] + back, order) == WithOrder((front + back) + [c], order)
  {
    hide WithOrder;
    WithOrderAppend(front, back, order);
    WithOrderAppend(front, [c], order);
    WithOrderAppend(front + [c], back, order);
    WithOrderAppend(front + back, [c], order);
    NoneWithOrder(back, order);
    NoneWithOrder([c], order);
  }

  lemma InsertKeepsAscending(cs: seq<Check>, c: Check)
    requires Ascending(cs)
    ensures Ascending(Insert(cs, c))
  {
  }

  lemma InsertKeepsMembers(cs: seq<Check>, c: Check)
    ensures multiset(Insert(cs, c)) == multiset(cs) + multiset{c}
  {
    assert cs == cs[..Position(cs, c)] + cs[Position(cs, c)..];
  }

  /** Two ascending chains that agree for every order value are the same chain. */
  lemma {:induction false} StableSortUnique(a: seq<Check>, b: seq<Check>)
    requires Ascending(a) && Ascending(b)
    requires SamePerOrder(a, b)
    ensures a == b
  {
    if a == [] || b == [] {
      if a != [] {
        assert WithOrder(a, a[0].order) != WithOrder(b, a[0].order);
      } else if b != [] {
        assert WithOrder(a, b[0].order) != WithOrder(b, b[0].order);
      }
    } else {
      NoneWithOrder(a, b[0].order);
      NoneWithOrder(b, a[0].order);
      assert WithOrder(a, a[0].order) == WithOrder(b, a[0].order);
      assert WithOrder(a, b[0].order) == WithOrder(b, b[0].order);
      assert a[0].order == b[0].order;
      forall order ensures WithOrder(a[1..], order) == WithOrder(b[1..], order) {
        assert WithOrder(a, order) == WithOrder(b, order);
        if order == a[0].order {
          assert WithOrder(a[1..], order) == WithOrder(a, order)[1..];
          assert WithOrder(b[1..], order) == WithOrder(b, order)[1..];
        }
      }
      assert a[0] == WithOrder(a, a[0].order)[0] == WithOrder(b, a[0].order)[0] == b[0];
      StableSortUnique(a[1..], b[1..]);
      assert a == [a[0]] + a[1..] && b == [b[0]] + b[1..];
    }
  }

  lemma {:induction false} RegisteredIsSorted(regs: seq<Check>)
    ensures Ascending(Registered(regs))
    ensures multiset(Registered(regs)) == multiset(regs)
    ensures SamePerOrder(Registered(regs), regs)
  {
    if regs != [] {
      var front, c := regs[..|regs| - 1], regs[|regs| - 1];
      RegisteredIsSorted(front);
      assert regs == front + [c];
      InsertKeepsAscending(Registered(front), c);
      InsertKeepsMembers(Registered(front), c);
      InsertIsStable(Registered(front), c);
      forall order ensures WithOrder(Registered(regs), order) == WithOrder(regs, order) {
        assert WithOrder(Registered(regs), order) == WithOrder(Registered(front) + [c], order);
        WithOrderAppend(Registered(front), [c], order);
        WithOrderAppend(front, [c], order);
        assert WithOrder(Registered(front), order) == WithOrder(front, order);
      }
    }
  }

  /** Registration computes the stable sort of the registration sequence, and nothing else
      is one. */
  lemma RegisteredIsTheStableSort(regs: seq<Check>, chain: seq<Check>)
    ensures chain == Registered(regs) <==> Ascending(chain) && SamePerOrder(chain, regs)
    ensures chain == Registered(regs) ==> multiset(chain) == multiset(regs)
  {
    RegisteredIsSorted(regs);
    if Ascending(chain) && SamePerOrder(chain, regs) {
      forall order ensures WithOrder(chain, order) == WithOrder(Registered(regs), order) {
        assert WithOrder(chain, order) == WithOrder(regs, order);
        assert WithOrder(Registered(regs), order) == WithOrder(regs, order);
      }
      StableSortUnique(chain, Registered(regs));
    }
  }

  /** The gate's own rules come with their own order and counting flag: they cannot be
      registered from outside. */
  predicate Canonical(c: Check) {
    match c.rule
    case KillSwitchRule => c == KILL_SWITCH
    case ConfirmationRequired => c == CONFIRMATION
    case OrderValue => c == ORDER_VALUE
    case DailyOrderCount => c == DAILY_ORDER_COUNT
    case PerSecondRate => c == PER_SECOND_RATE
    case RateLimit => c == RATE_LIMIT
    case ClientOrderId => c == CLIENT_ORDER_ID
    case DuplicateOrder => c == DUPLICATE_ORDER
    case DailyValueCap => c == DAILY_VALUE
    case OffHoursBlock => c == OFF_HOURS
    case MarketHours => c == MARKET_HOURS
    case External(_) => true
  }

  /** An ascending chain that runs every rule of the gate. */
  ghost predicate WellFormed(chain: seq<Check>) {
    && Ascending(chain)
    && (forall i :: 0 <= i < |chain| ==> Canonical(chain[i]))
    && KILL_SWITCH in chain && CONFIRMATION in chain && ORDER_VALUE in chain
    && DAILY_ORDER_COUNT in chain && PER_SECOND_RATE in chain && RATE_LIMIT in chain
    && CLIENT_ORDER_ID in chain && DUPLICATE_ORDER in chain && DAILY_VALUE in chain
    && OFF_HOURS in chain && MARKET_HOURS in chain
  }

  /** The built-in checks by rule and place. */
  lemma BuiltinPlaces()
    ensures |BUILTINS| == 16
    ensures BUILTINS[0].rule == KillSwitchRule && BUILTINS[0].order == 100
    ensures BUILTINS[1].rule == ConfirmationRequired && BUILTINS[1].order == 200
    ensures BUILTINS[2].rule == OrderValue && BUILTINS[2].order == 300
    ensures BUILTINS[3].rule == External("margin_check") && BUILTINS[3].order == 325
    ensures BUILTINS[4].rule == External("circuit_limit") && BUILTINS[4].order == 350
    ensures BUILTINS[5].rule == External("quantity_limit") && BUILTINS[5].order == 400
    ensures BUILTINS[6].rule == DailyOrderCount && BUILTINS[6].order == 500
    ensures BUILTINS[7].rule == PerSecondRate && BUILTINS[7].order == 600
    ensures BUILTINS[8].rule == RateLimit && BUILTINS[8].order == 700
    ensures BUILTINS[9].rule == ClientOrderId && BUILTINS[9].order == 800
    ensures BUILTINS[10].rule == DuplicateOrder && BUILTINS[10].order == 900
    ensures BUILTINS[11].rule == DailyValueCap && BUILTINS[11].order == 1000
    ensures BUILTINS[12].rule == External("otr_band") && BUILTINS[12].order == 1050
    ensures BUILTINS[13].rule == External("anomaly_multiplier") && BUILTINS[13].order == 1100
    ensures BUILTINS[14].rule == OffHoursBlock && BUILTINS[14].order == 1200
    ensures BUILTINS[15].rule == MarketHours && BUILTINS[15].order == 1300
  {
  }

  lemma BuiltinsAscend()
    ensures Ascending(BUILTINS)
  {
  }

  lemma BuiltinsCanonical()
    ensures forall c :: c in BUILTINS ==> Canonical(c)
    ensures KILL_SWITCH in BUILTINS && CONFIRMATION in BUILTINS && ORDER_VALUE in BUILTINS
    ensures DAILY_ORDER_COUNT in BUILTINS && PER_SECOND_RATE in BUILTINS && RATE_LIMIT in BUILTINS
    ensures CLIENT_ORDER_ID in BUILTINS && DUPLICATE_ORDER in BUILTINS && DAILY_VALUE in BUILTINS
    ensures OFF_HOURS in BUILTINS && MARKET_HOURS in BUILTINS
  {
    assert BUILTINS[0] == KILL_SWITCH && BUILTINS[1] == CONFIRMATION && BUILTINS[2] == ORDER_VALUE;
    assert BUILTINS[6] == DAILY_ORDER_COUNT && BUILTINS[7] == PER_SECOND_RATE && BUILTINS[8] == RATE_LIMIT;
    assert BUILTINS[9] == CLIENT_ORDER_ID && BUILTINS[10] == DUPLICATE_ORDER && BUILTINS[11] == DAILY_VALUE;
    assert BUILTINS[14] == OFF_HOURS && BUILTINS[15] == MARKET_HOURS;
  }

  lemma SameMembers(a: seq<Check>, b: seq<Check>)
    requires multiset(a) == multiset(b)
    ensures forall c :: c in a <==> c in b
  {
    forall c ensures c in a <==> c in b {
      assert c in multiset(a) <==> c in multiset(b);
    }
  }

  lemma BuiltinsFirst(builtins: seq<Check>, extra: seq<Check>)
    requires Ascending(builtins)
    ensures Registered(builtins) == builtins
    ensures Ascending(Registered(builtins + extra))
    ensures forall c :: c in Registered(builtins + extra) <==> c in builtins || c in extra
  {
    RegisteredIsTheStableSort(builtins, builtins);
    RegisteredIsSorted(builtins + extra);
    SameMembers(Registered(builtins + extra), builtins + extra);
  }

  /** The sixteen built-ins run in their listed order, and any later registrations of
      external checks keep the chain well formed. */
  lemma RegistrationKeepsChainWellFormed(extra: seq<Check>)
    requires forall c :: c in extra ==> c.rule.External?
    ensures Registered(BUILTINS) == BUILTINS
    ensures WellFormed(Registered(BUILTINS + extra))
  {
    BuiltinsAscend();
    BuiltinsFirst(BUILTINS, extra);
    BuiltinsCanonical();
    var chain := Registered(BUILTINS + extra);
    forall i | 0 <= i < |chain| ensures Canonical(chain[i]) {
      assert chain[i] in chain;
    }
  }
}

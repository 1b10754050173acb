/** The users controller of the ledger API: the handlers for listing, reading
    and creating users, for deposits and for transfers.

    The two services the controller talks to are modelled by what it asks of
    them. Every call is one entry of an ordered trace of effects: `Recorded(t)`
    is a call of the transactions service's `create` with record `t`, and
    `Requested(c)` is a call `c` of the users service. The transaction log is
    the projection `Log` of the trace onto its records, and the settlements
    (the deposit and transfer requests that move money) are the projection
    `Settlements`. Results the users service hands back (the id of a created
    user, a sender's balance) are inputs. */
module Users {

  import opened Transactions

  /** The body of a create-user request; its fields are passed on unread. */
  type Profile = string

  /** A call of the users service. */
  datatype UserCall =
    | Create(profile: Profile)
    | Find
    | FindOne(id: UserId)
    | CheckBalance(user: UserId, currency: Currency)
    | DepositCall(deposit: Deposit)
    | TransferCall(tx: Tx)
  {
    /** Calls that move money. */
    predicate IsSettlement() { DepositCall? || TransferCall? }
  }

  /** One collaborator call made by the controller. */
  datatype Effect = Recorded(tx: Tx) | Requested(call: UserCall)

  /** A request handled by the controller, together with what the users
      service answers inside it: the id it gives a created user, the balance
      it reports for a transfer's sender. */
  datatype Request =
    | FindUsers
    | FindOneUser(userId: UserId)
    | AddUser(user: Profile, createdId: UserId)
    | DepositMoney(deposit: Deposit)
    | TransferMoney(details: NewTransaction, senderBalance: real)
  {
    /** Requests that only read. */
    predicate IsQuery() { FindUsers? || FindOneUser? }
  }

  // ---------------------------------------------------------------------------
  // Projections of a trace

  /** The transaction log: the records of the trace, in order. */
  function Log(trace: seq<Effect>): seq<Tx>
  {
    if trace == [] then []
    else (if trace[0].Recorded? then [trace[0].tx] else []) + Log(trace[1..])
  }

  /** The settlement calls of the trace, in order. */
  function Settlements(trace: seq<Effect>): seq<UserCall>
  {
    if trace == [] then []
    else (if trace[0].Requested? && trace[0].call.IsSettlement() then [trace[0].call] else [])
         + Settlements(trace[1..])
  }

  lemma {:induction false} LogConcat(a: seq<Effect>, b: seq<Effect>)
    ensures Log(a + b) == Log(a) + Log(b)
  {
    if a == [] {
      assert a + b == b;
    } else {
      assert (a + b)[0] == a[0] && (a + b)[1..] == a[1..] + b;
      LogConcat(a[1..], b);
      var head := if a[0].Recorded? then [a[0].tx] else [];
      calc {
        Log(a + b);
        head + Log(a[1..] + b);
        head + (Log(a[1..]) + Log(b));
        (head + Log(a[1..])) + Log(b);
      }
    }
  }

  lemma {:induction false} SettlementsConcat(a: seq<Effect>, b: seq<Effect>)
    ensures Settlements(a + b) == Settlements(a) + Settlements(b)
  {
    if a == [] {
      assert a + b == b;
    } else {
      assert (a + b)[1..] == a[1..] + b;
      SettlementsConcat(a[1..], b);
    }
  }

  /** The record that a settlement call must directly follow in the trace. */
  function Announced(c: UserCall): Tx
    requires c.IsSettlement()
  {
    match c
    case DepositCall(d) => DepositRecord(d)
    case TransferCall(t) => t
  }

  /** Record before settlement: every settlement call comes right after the
      record it settles, and a transfer is only settled on a successful record. */
  predicate SettlesWhatItRecords(trace: seq<Effect>)
  {
    forall i | 0 <= i < |trace| && trace[i].Requested? && trace[i].call.IsSettlement() ::
      && 0 < i
      && trace[i - 1] == Recorded(Announced(trace[i].call))
      && (trace[i].call.TransferCall? ==> trace[i].call.tx.success)
  }

  lemma SettlesWhatItRecordsConcat(a: seq<Effect>, b: seq<Effect>)
    requires SettlesWhatItRecords(a) && SettlesWhatItRecords(b)
    ensures SettlesWhatItRecords(a + b)
  {
  }

  // ---------------------------------------------------------------------------
  // The handlers, as the effects each request produces

  /** The collaborator calls one request makes, in order. */
  function Effects(req: Request): seq<Effect>
  {
    match req
    case FindUsers => [Requested(Find)]
    case FindOneUser(id) => [Requested(FindOne(id))]
    case AddUser(user, id) => [Requested(Create(user)), Recorded(SeedRecord(id))]
    case DepositMoney(d) => [Recorded(DepositRecord(d)), Requested(DepositCall(d))]
    case TransferMoney(details, balance) =>
      var t := TransferRecord(details, balance);
      [Requested(CheckBalance(details.sender, details.sourceCurrency)), Recorded(t)]
      + (if IsValidTransfer(balance, details) then [Requested(TransferCall(t))] else [])
  }

  /** What each handler writes to the log and settles: reads nothing; a
      creation its seed record; a deposit its record and its settlement; a
      transfer its record, plus the settlement of that same record exactly
      when the balance test passes. */
  lemma EffectsProjections(req: Request)
    ensures req.IsQuery() ==> Log(Effects(req)) == [] && Settlements(Effects(req)) == []
    ensures req.AddUser? ==>
              Log(Effects(req)) == [SeedRecord(req.createdId)] && Settlements(Effects(req)) == []
    ensures req.DepositMoney? ==>
              && Log(Effects(req)) == [DepositRecord(req.deposit)]
              && Settlements(Effects(req)) == [DepositCall(req.deposit)]
    ensures req.TransferMoney? ==>
              && Log(Effects(req)) == [TransferRecord(req.details, req.senderBalance)]
              && Settlements(Effects(req)) == (if IsValidTransfer(req.senderBalance, req.details)
                                               then [TransferCall(TransferRecord(req.details, req.senderBalance))]
                                               else [])
  {
    var r := Effects(req);
    if |r| == 1 {
      assert r[1..] == [];
    } else if |r| == 2 {
      assert r == [r[0]] + [r[1]] && [r[0]][1..] == [] && [r[1]][1..] == [];
      LogConcat([r[0]], [r[1]]);
      SettlementsConcat([r[0]], [r[1]]);
    } else {
      assert r == [r[0]] + [r[1]] + [r[2]];
      assert [r[0]][1..] == [] && [r[1]][1..] == [] && [r[2]][1..] == [];
      LogConcat([r[0]] + [r[1]], [r[2]]);
      LogConcat([r[0]], [r[1]]);
      SettlementsConcat([r[0]] + [r[1]], [r[2]]);
      SettlementsConcat([r[0]], [r[1]]);
    }
  }

  /** Each handler records before it settles, and settles only what it recorded. */
  lemma EffectsSettleWhatTheyRecord(req: Request)
    ensures SettlesWhatItRecords(Effects(req))
  {
  }

  /** The trace of serving the requests one after another. */
  function Serve(reqs: seq<Request>): seq<Effect>
  {
    if reqs == [] then [] else Serve(reqs[..|reqs| - 1]) + Effects(reqs[|reqs| - 1])
  }

  // ---------------------------------------------------------------------------
  // Counting requests

  /** Requests that write to the log: creations, deposits and transfers. */
  function Attempts(reqs: seq<Request>): nat
  {
    if reqs == [] then 0
    else Attempts(reqs[..|reqs| - 1]) + (if reqs[|reqs| - 1].IsQuery() then 0 else 1)
  }

  /** Transfers whose sender's balance did not exceed the amount. */
  function Rejected(reqs: seq<Request>): nat
  {
    if reqs == [] then 0
    else
      var r := reqs[|reqs| - 1];
      Rejected(reqs[..|reqs| - 1])
      + (if r.TransferMoney? && !IsValidTransfer(r.senderBalance, r.details) then 1 else 0)
  }

  /** Number of records marked unsuccessful. */
  function Failures(log: seq<Tx>): nat
  {
    if log == [] then 0 else (if log[0].success then 0 else 1) + Failures(log[1..])
  }

  lemma {:induction false} FailuresConcat(a: seq<Tx>, b: seq<Tx>)
    ensures Failures(a + b) == Failures(a) + Failures(b)
  {
    if a == [] {
      assert a + b == b;
    } else {
      assert (a + b)[1..] == a[1..] + b;
      FailuresConcat(a[1..], b);
    }
  }

  /** The requests without the read-only ones. */
  function WithoutQueries(reqs: seq<Request>): (r: seq<Request>)
    ensures forall i | 0 <= i < |r| :: !r[i].IsQuery()
  {
    if reqs == [] then []
    else
      var last := reqs[|reqs| - 1];
      WithoutQueries(reqs[..|reqs| - 1]) + (if last.IsQuery() then [] else [last])
  }

  // ---------------------------------------------------------------------------
  // What serving any sequence of requests guarantees

  lemma ServeSnoc(reqs: seq<Request>, r: Request)
    ensures Serve(reqs + [r]) == Serve(reqs) + Effects(r)
  {
  }

  /** Every creation, deposit and transfer appends exactly one record; reads append none. */
  lemma {:induction false} ServeLogLength(reqs: seq<Request>)
    ensures |Log(Serve(reqs))| == Attempts(reqs)
  {
    if reqs != [] {
      var init, last := reqs[..|reqs| - 1], reqs[|reqs| - 1];
      ServeLogLength(init);
      LogConcat(Serve(init), Effects(last));
      EffectsProjections(last);
    }
  }

  /** The only unsuccessful records are those of rejected transfers, one per rejection. */
  lemma {:induction false} ServeFailuresAreRejections(reqs: seq<Request>)
    ensures Failures(Log(Serve(reqs))) == Rejected(reqs)
  {
    if reqs != [] {
      var init, last := reqs[..|reqs| - 1], reqs[|reqs| - 1];
      ServeFailuresAreRejections(init);
      LogConcat(Serve(init), Effects(last));
      FailuresConcat(Log(Serve(init)), Log(Effects(last)));
      EffectsProjections(last);
      var logged := Log(Effects(last));
      assert |logged| == 1 ==> Failures(logged) == (if logged[0].success then 0 else 1) + Failures(logged[1..]);
    }
  }

  /** Whatever is requested, money only moves right after the matching record
      has been logged, and only on a successful transfer record. */
  lemma {:induction false} ServeSettlesWhatItRecords(reqs: seq<Request>)
    ensures SettlesWhatItRecords(Serve(reqs))
  {
    if reqs != [] {
      var init, last := reqs[..|reqs| - 1], reqs[|reqs| - 1];
      ServeSettlesWhatItRecords(init);
      EffectsSettleWhatTheyRecord(last);
      SettlesWhatItRecordsConcat(Serve(init), Effects(last));
    }
  }

  /** Serving one more request extends the log and the settlements by that
      request's own. */
  lemma ServeOneMore(before: seq<Effect>, req: Request)
    ensures Log(before + Effects(req)) == Log(before) + Log(Effects(req))
    ensures Settlements(before + Effects(req)) == Settlements(before) + Settlements(Effects(req))
  {
    LogConcat(before, Effects(req));
    SettlementsConcat(before, Effects(req));
  }

  /** Serving a request after either of two traces with the same projections
      keeps their projections equal. */
  lemma ExtendSameProjections(t: seq<Effect>, u: seq<Effect>, last: Request)
    requires Log(t) == Log(u) && Settlements(t) == Settlements(u)
    ensures Log(t + Effects(last)) == Log(u + Effects(last))
    ensures Settlements(t + Effects(last)) == Settlements(u + Effects(last))
  {
    ServeOneMore(t, last);
    ServeOneMore(u, last);
  }

  /** A read-only request leaves both projections of a trace as they were. */
  lemma QueryIsInert(t: seq<Effect>, q: Request)
    requires q.IsQuery()
    ensures Log(t + Effects(q)) == Log(t) && Settlements(t + Effects(q)) == Settlements(t)
  {
    ServeOneMore(t, q);
    EffectsProjections(q);
  }

  /** Reading users changes neither the log nor what is settled. */
  lemma {:induction false} QueriesAreInert(reqs: seq<Request>)
    ensures Log(Serve(reqs)) == Log(Serve(WithoutQueries(reqs)))
    ensures Settlements(Serve(reqs)) == Settlements(Serve(WithoutQueries(reqs)))
  {
    if reqs != [] {
      var init, last := reqs[..|reqs| - 1], reqs[|reqs| - 1];
      QueriesAreInert(init);
      var w := WithoutQueries(init);
      if last.IsQuery() {
        assert WithoutQueries(reqs) == w;
        QueryIsInert(Serve(init), last);
      } else {
        assert WithoutQueries(reqs) == w + [last];
        ServeSnoc(w, last);
        ExtendSameProjections(Serve(init), Serve(w), last);
      }
    }
  }

  /** Serving one transfer after a trace: the log gains its record, and the
      settlements gain that record's settlement exactly when the test passes. */
  lemma TransferAfter(before: seq<Effect>, details: NewTransaction, senderBalance: real)
    ensures var t := TransferRecord(details, senderBalance);
            var effects := before + Effects(TransferMoney(details, senderBalance));
            && Log(effects) == Log(before) + [t]
            && Settlements(effects) == Settlements(before)
                                       + (if senderBalance > details.amount then [TransferCall(t)] else [])
  {
    ServeOneMore(before, TransferMoney(details, senderBalance));
    EffectsProjections(TransferMoney(details, senderBalance));
  }

  // ---------------------------------------------------------------------------
  // The controller

  /** The users controller. `effects` is everything it has asked of its
      collaborators so far; `served` is the requests it has handled. */
  class UsersController {
    var effects: seq<Effect>
    ghost var served: seq<Request>

    ghost predicate Valid()
      reads this
    {
      effects == Serve(served)
    }

    constructor ()
      ensures Valid() && effects == [] && served == []
    {
      effects := [];
      served := [];
    }

    /** GET api/v1/users: asks the users service for the list. */
    method FindUsers()
      requires Valid()
      modifies this
      ensures Valid() && served == old(served) + [Request.FindUsers]
      ensures effects == old(effects) + [Requested(Find)]
      ensures Log(effects) == Log(old(effects)) && Settlements(effects) == Settlements(old(effects))
    {
      ghost var req := Request.FindUsers;
      ServeSnoc(served, req);
      ServeOneMore(effects, req);
      EffectsProjections(req);
      effects := effects + [Requested(Find)];
      served := served + [req];
    }

    /** GET api/v1/users/:id: asks the users service for one user. */
    method FindOneUser(userId: UserId)
      requires Valid()
      modifies this
      ensures Valid() && served == old(served) + [Request.FindOneUser(userId)]
      ensures effects == old(effects) + [Requested(FindOne(userId))]
      ensures Log(effects) == Log(old(effects)) && Settlements(effects) == Settlements(old(effects))
    {
      ghost var req := Request.FindOneUser(userId);
      ServeSnoc(served, req);
      ServeOneMore(effects, req);
      EffectsProjections(req);
      effects := effects + [Requested(FindOne(userId))];
      served := served + [req];
    }

    /** POST api/v1/users: creates the user, then logs its seed credit.
        `createdId` is the id the users service gives the new user. */
    method AddUser(user: Profile, createdId: UserId)
      requires Valid()
      modifies this
      ensures Valid() && served == old(served) + [Request.AddUser(user, createdId)]
      ensures effects == old(effects) + [Requested(Create(user)), Recorded(SeedRecord(createdId))]
      ensures Log(effects) == Log(old(effects)) + [SeedRecord(createdId)]
      ensures Settlements(effects) == Settlements(old(effects))
    {
      ghost var req := Request.AddUser(user, createdId);
      ServeSnoc(served, req);
      ServeOneMore(effects, req);
      EffectsProjections(req);
      effects := effects + [Requested(Create(user))];
      var initialDepositTransaction := Tx(createdId, createdId, USD, USD, 1.0, 1000.0, true);
      effects := effects + [Recorded(initialDepositTransaction)];
      served := served + [req];
    }

    /** POST api/v1/users/deposit: logs the deposit, then asks the users
        service to carry it out. */
    method DepositMoney(deposit: Deposit)
      requires Valid()
      modifies this
      ensures Valid() && served == old(served) + [Request.DepositMoney(deposit)]
      ensures effects == old(effects) + [Recorded(DepositRecord(deposit)), Requested(DepositCall(deposit))]
      ensures Log(effects) == Log(old(effects)) + [DepositRecord(deposit)]
      ensures Settlements(effects) == Settlements(old(effects)) + [DepositCall(deposit)]
    {
      ghost var req := Request.DepositMoney(deposit);
      ServeSnoc(served, req);
      ServeOneMore(effects, req);
      EffectsProjections(req);
      var newDepositTransaction := Tx(deposit.user, deposit.user, USD, USD, 1.0, deposit.amount, true);
      effects := effects + [Recorded(newDepositTransaction)];
      effects := effects + [Requested(DepositCall(deposit))];
      served := served + [req];
    }

    /** POST api/v1/users/transfer: asks for the sender's balance (answered by
        `senderBalance`), logs the attempt, and asks the users service to
        settle it only when the balance strictly exceeds the requested amount.
        `settled` tells whether the settlement was requested. */
    method TransferMoney(details: NewTransaction, senderBalance: real) returns (settled: bool)
      requires Valid()
      modifies this
      ensures Valid() && served == old(served) + [Request.TransferMoney(details, senderBalance)]
      ensures settled <==> senderBalance > details.amount
      ensures effects == old(effects)
                         + [Requested(CheckBalance(details.sender, details.sourceCurrency)),
                            Recorded(TransferRecord(details, senderBalance))]
                         + (if settled then [Requested(TransferCall(TransferRecord(details, senderBalance)))]
                            else [])
      ensures Log(effects) == Log(old(effects)) + [TransferRecord(details, senderBalance)]
      ensures Settlements(effects) == Settlements(old(effects))
                                      + (if settled then [TransferCall(TransferRecord(details, senderBalance))]
                                         else [])
    {
      ghost var req := Request.TransferMoney(details, senderBalance);
      ghost var before := effects;
      ServeSnoc(served, req);
      TransferAfter(before, details, senderBalance);
      var amountToTargetCurrency := details.amount * details.exchangeRate;
      effects := effects + [Requested(CheckBalance(details.sender, details.sourceCurrency))];
      if senderBalance > details.amount {
        var validTransfer := Tx(details.sender, details.receiver, details.sourceCurrency,
                                details.targetCurrency, details.exchangeRate, amountToTargetCurrency, true);
        effects := effects + [Recorded(validTransfer)];
        effects := effects + [Requested(TransferCall(validTransfer))];
        settled := true;
        assert validTransfer == TransferRecord(details, senderBalance);
      } else {
        var invalidTransfer := Tx(details.sender, details.receiver, details.sourceCurrency,
                                  details.targetCurrency, details.exchangeRate, amountToTargetCurrency, false);
        effects := effects + [Recorded(invalidTransfer)];
        settled := false;
        assert invalidTransfer == TransferRecord(details, senderBalance);
      }
      assert effects == before + Effects(req);
      served := served + [req];
    }
  }

  /** What any controller guarantees about the session behind it: one
      record per creation, deposit and transfer it has handled, one failed
      record per rejected transfer, and every settlement right after its record. */
  lemma ControllerGuarantees(c: UsersController)
    requires c.Valid()
    ensures |Log(c.effects)| == Attempts(c.served)
    ensures Failures(Log(c.effects)) == Rejected(c.served)
    ensures SettlesWhatItRecords(c.effects)
  {
    ServeLogLength(c.served);
    ServeFailuresAreRejections(c.served);
    ServeSettlesWhatItRecords(c.served);
  }

  /** A client session on a controller in any state: two accounts are
      created and the first receives a deposit of 500; a transfer of 200 from
      the first (balance 1500) to the second goes through, and a transfer of
      2000 back (balance 1000) is logged as failed and never settled. */
  method ExampleSession(controller: UsersController)
    requires controller.Valid()
    modifies controller
  {
    ghost var log, settlements := Log(controller.effects), Settlements(controller.effects);
    controller.AddUser("alice", "u1");
    controller.DepositMoney(Deposit("u1", 500.0));
    controller.AddUser("bob", "u2");
    log := log + [SeedRecord("u1"), DepositRecord(Deposit("u1", 500.0)), SeedRecord("u2")];
    settlements := settlements + [DepositCall(Deposit("u1", 500.0))];
    assert Log(controller.effects) == log && Settlements(controller.effects) == settlements;

    var forward := NewTransaction("u1", "u2", USD, USD, 1.0, 200.0);
    var settled := controller.TransferMoney(forward, 1500.0);
    assert settled;
    log, settlements := log + [TransferRecord(forward, 1500.0)],
                        settlements + [TransferCall(TransferRecord(forward, 1500.0))];
    assert Log(controller.effects) == log && Settlements(controller.effects) == settlements;

    controller.FindUsers();
    var back := NewTransaction("u2", "u1", USD, USD, 1.0, 2000.0);
    settled := controller.TransferMoney(back, 1000.0);
    assert !settled;
    log := log + [TransferRecord(back, 1000.0)];
    assert Log(controller.effects) == log && Settlements(controller.effects) == settlements;
    assert log[|log| - 2].success && log[|log| - 2].amount == 200.0 && !log[|log| - 1].success;
  }
}

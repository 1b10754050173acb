/** The transaction records the users controller builds (CreateTransactionDto)
    and the request bodies it builds them from (NewTransactionDto, DepositDto).
    Amounts and exchange rates are exact reals. */
module Transactions {

  type UserId = string
  type Currency = string

  /** One row of the transaction log: an attempted money movement, successful or not. */
  datatype Tx = Tx(
    sender: UserId,
    receiver: UserId,
    sourceCurrency: Currency,
    targetCurrency: Currency,
    exchangeRate: real,
    amount: real,
    success: bool)

  /** The body of a transfer request; `amount` is in the source currency. */
  datatype NewTransaction = NewTransaction(
    sender: UserId,
    receiver: UserId,
    sourceCurrency: Currency,
    targetCurrency: Currency,
    exchangeRate: real,
    amount: real)

  /** The body of a deposit request. */
  datatype Deposit = Deposit(user: UserId, amount: real)

  const USD: Currency := "USD"

  /** The amount every new account is credited with. */
  const SeedAmount: real := 1000.0

  /** A transfer goes ahead only when the sender's balance strictly exceeds
      the requested amount, taken before conversion. */
  predicate IsValidTransfer(senderBalance: real, details: NewTransaction)
  {
    senderBalance > details.amount
  }

  /** `t` is a faithful record of the request: parties, currencies and rate
      copied unchanged, amount converted into the target currency. */
  predicate RecordsRequest(t: Tx, details: NewTransaction)
  {
    && t.sender == details.sender
    && t.receiver == details.receiver
    && t.sourceCurrency == details.sourceCurrency
    && t.targetCurrency == details.targetCurrency
    && t.exchangeRate == details.exchangeRate
    && t.amount == details.amount * details.exchangeRate
  }

  /** `t` credits `user` with `amount` US dollars from itself, at rate 1, and is marked successful. */
  predicate IsSelfCredit(t: Tx, user: UserId, amount: real)
  {
    && t.sender == user && t.receiver == user
    && t.sourceCurrency == USD && t.targetCurrency == USD
    && t.exchangeRate == 1.0
    && t.amount == amount
    && t.success
  }

  /** The record a transfer attempt logs, on either branch of the balance test. */
  function TransferRecord(details: NewTransaction, senderBalance: real): (t: Tx)
    ensures RecordsRequest(t, details)
    ensures t.success <==> senderBalance > details.amount
  {
    var amountToTargetCurrency := details.amount * details.exchangeRate;
    Tx(details.sender, details.receiver, details.sourceCurrency, details.targetCurrency,
       details.exchangeRate, amountToTargetCurrency, IsValidTransfer(senderBalance, details))
  }

  /** The record a deposit logs. */
  function DepositRecord(deposit: Deposit): (t: Tx)
    ensures IsSelfCredit(t, deposit.user, deposit.amount)
  {
    Tx(deposit.user, deposit.user, USD, USD, 1.0, deposit.amount, true)
  }

  /** The record logged for a newly created account. */
  function SeedRecord(id: UserId): (t: Tx)
    ensures IsSelfCredit(t, id, SeedAmount)
  {
    Tx(id, id, USD, USD, 1.0, SeedAmount, true)
  }

  /** The seed record is exactly what a deposit of the seed amount would log. */
  lemma SeedIsSeedDeposit(id: UserId)
    ensures SeedRecord(id) == DepositRecord(Deposit(id, SeedAmount))
  {
  }

  /** A balance equal to the requested amount is not enough. */
  lemma EqualBalanceRejected(details: NewTransaction)
    ensures !TransferRecord(details, details.amount).success
  {
  }

  /** Whether a transfer succeeds does not depend on the exchange rate, while
      the amount it records does. */
  lemma OutcomeIgnoresRate(details: NewTransaction, senderBalance: real, rate: real)
    ensures TransferRecord(details.(exchangeRate := rate), senderBalance).success
        == TransferRecord(details, senderBalance).success
    ensures TransferRecord(details.(exchangeRate := rate), senderBalance).amount == details.amount * rate
  {
  }

  /** The test and the record use different amounts: whenever the balance
      lies strictly between the requested amount and its conversion, the
      transfer succeeds and records more than the sender's balance. */
  lemma CheckedAmountIsNotRecordedAmount(details: NewTransaction, senderBalance: real)
    requires details.amount < senderBalance < details.amount * details.exchangeRate
    ensures TransferRecord(details, senderBalance).success
    ensures TransferRecord(details, senderBalance).amount > senderBalance
  {
  }

  /** An instance: a sender holding 15 may transfer 10 at rate 2, and the
      record then carries 20. */
  lemma CheckedAmountExample()
    ensures var t := TransferRecord(NewTransaction("a", "b", "USD", "EUR", 2.0, 10.0), 15.0);
            t.success && t.amount == 20.0 && t.amount > 15.0
  {
    CheckedAmountIsNotRecordedAmount(NewTransaction("a", "b", "USD", "EUR", 2.0, 10.0), 15.0);
  }
}

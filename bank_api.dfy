/** The records exchanged with the bank's REST API and between the widget
    and its backend helper. JSON objects become datatypes; a property that
    may be absent becomes an Option. */
module BankApi {
  import opened JsText

  /** An entry of `GET Accounts/`. `accountNumber` is the string the bank
      sends; the widget parses it with `parseInt`. */
  datatype Account = Account(
    accountId: string,
    accountNumber: string,
    name: string,
    accountType: string,
    balance: real)

  /** An entry of `GET Payments/<accountId>`; `dueDate` is the instant the
      due date parses to, in milliseconds. */
  datatype Payment = Payment(dueDate: int, amount: real)

  /** An entry of `GET Transactions/<accountId>`; `interestDate` is the
      instant the interest date parses to, in milliseconds. */
  datatype Transaction = Transaction(
    interestDate: int,
    text: string,
    amount: real,
    transactionType: string,
    source: string)

  /** A parsed `{items: [...]}` body; `items` is None when the property is
      absent. */
  datatype Listing<T> = Listing(items: Option<seq<T>>)

  /** The parsed body of the token endpoint. */
  datatype Token = Token(accessToken: Option<string>)

  /** What a request yields to the widget: the parsed body, or the object
      `{error: true, responseCode: <status>}`. */
  datatype Payload<T> = Body(body: T) | Error(responseCode: int)

  /** How a request settled: whether the transport reported an error, the
      HTTP status, and the parsed body. */
  datatype Reply<T> = Reply(transportError: bool, statusCode: int, body: T)

  /** The payload of PAYMENTS and TRANSACTIONS: the array literal `[]` sent
      when no request was made, or the object filled per account number. */
  datatype Emission<T> = EmptyArray | Entries(entries: map<string, Listing<T>>)

  /** `payload[key]` on an emission: an array has no entry for an account
      number, an object has the ones the helper put in. */
  function EntryFor<T>(e: Emission<T>, key: string): (r: Option<Listing<T>>)
    ensures r.Some? <==> e.Entries? && key in e.entries
    ensures r.Some? ==> r.value == e.entries[key]
  {
    match e
    case EmptyArray => None
    case Entries(m) => if key in m then Some(m[key]) else None
  }
}

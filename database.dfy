/**
 * The state the backend controllers share: the document collections and the
 * key/value cache, as fields of one object that the controllers update in
 * place, plus the caller identity and the HTTP-style replies.
 */
module Database {
  import opened Wrappers
  import opened Ids
  import opened ProductModel
  import opened OrderModel
  import opened CreditModel
  import opened ChatModel

  /** The fields of a user record that the credit summary looks up. */
  datatype UserRecord = UserRecord(name: string, email: string)

  /** The authenticated caller (`req.user`), resolved upstream. */
  datatype Caller = Caller(id: UserId, isAdmin: bool)

  /** A controller's reply: a status code, with a body on success. */
  datatype Response<T> = Success(status: int, value: T) | Failure(status: int)

  class Db {
    /** The products collection, by id. */
    var products: map<ProductId, Product>
    /** The orders collection, in insertion order. */
    var orders: seq<Order>
    /** The credit ledger collection, in insertion order. */
    var ledger: seq<Entry>
    /** The users collection (only what the credit summary reads). */
    var users: map<UserId, UserRecord>
    /** The chat logs collection, at most one log per user. */
    var chatLogs: map<UserId, ChatLog>
    /** The cache: key to a product listing. */
    var cache: map<string, map<ProductId, Product>>

    constructor ()
      ensures products == map[] && orders == [] && ledger == []
      ensures users == map[] && chatLogs == map[] && cache == map[]
    {
      products := map[];
      orders := [];
      ledger := [];
      users := map[];
      chatLogs := map[];
      cache := map[];
    }
  }
}

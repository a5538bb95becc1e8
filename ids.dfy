/** Document identifiers: MongoDB object ids, carried as their hexadecimal strings. */
module Ids {
  type UserId = string
  type ProductId = string
  type OrderId = string
  type EntryId = string
}

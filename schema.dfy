/**
 * The rows this admin dashboard reads from the marketplace's data store. Nullable
 * columns are `Option`s, money is an integer number of cents and every timestamp
 * is an integer number of milliseconds since the epoch.
 */
module Schema {
  import opened Wrappers

  /** A registered account (`users`). */
  datatype UserRow = UserRow(
    id: Option<string>,
    name: Option<string>,
    username: Option<string>,
    email: Option<string>,
    phoneNumber: Option<string>,
    createdAt: int)

  /** A payout profile (`creators`), one per user that applied to sell. */
  datatype Creator = Creator(
    userId: string,
    fullName: Option<string>,
    icNumber: Option<string>,
    recipientName: Option<string>,
    bankAccount: Option<string>,
    bankName: Option<string>,
    status: string,
    createdAt: int)

  /** A listed digital good (`products`); `status` is "review", "approved" or "rejected". */
  datatype Product = Product(
    id: string,
    ownerId: Option<string>,
    title: string,
    category: Option<string>,
    price: int,
    status: string,
    isActive: bool,
    isDeleted: bool,
    createdAt: int)

  /** The `id, username` of a product's owner, as the manual join fetches it. */
  datatype Owner = Owner(id: string, username: Option<string>)

  /** A checkout (`purchases`); only `status == "paid"` rows are revenue. */
  datatype Purchase = Purchase(
    id: string,
    productId: string,
    amount: int,
    status: string,
    createdAt: int)

  /** The creator columns embedded in a withdrawal row. */
  datatype PayoutProfile = PayoutProfile(
    fullName: Option<string>,
    recipientName: Option<string>,
    bankAccount: Option<string>,
    bankName: Option<string>)

  /** A payout request (`withdrawals`); `status` is "pending" or "paid". */
  datatype Withdrawal = Withdrawal(
    id: string,
    creatorId: string,
    amount: int,
    fee: int,
    netAmount: Option<int>,
    status: string,
    requestedAt: int,
    processedAt: Option<int>,
    creators: Option<PayoutProfile>)
}

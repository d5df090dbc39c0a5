/**
 * The rows the dashboard reads from its backend tables, as declared in
 * src/types/database.ts. Nullable columns are `Option`s; timestamps are
 * whole milliseconds since the epoch (what `new Date(s).getTime()` yields
 * for the stored ISO string); prices and amounts are whole numbers.
 */
module Records {
  import opened Common

  /** Milliseconds since 1970-01-01T00:00:00Z. */
  type Timestamp = int

  datatype Category = Category(
    id: string,
    name: string,
    description: Option<string>,
    createdAt: Timestamp,
    updatedAt: Timestamp)

  datatype Company = Company(
    id: string,
    name: string,
    contactPerson: Option<string>,
    email: Option<string>,
    phone: Option<string>,
    address: Option<string>,
    createdAt: Timestamp,
    updatedAt: Timestamp)

  /**
   * A product row together with the names of its joined category and company,
   * which the product screens select alongside it (`categories(name)`,
   * `category:category_id(name)`, `company:company_id(name)`).
   */
  datatype Product = Product(
    id: string,
    name: string,
    description: Option<string>,
    categoryId: string,
    companyId: string,
    sku: Option<string>,
    price: int,
    costPrice: int,
    quantity: int,
    expiryDate: Option<Timestamp>,
    createdAt: Timestamp,
    updatedAt: Timestamp,
    categoryName: Option<string>,
    companyName: Option<string>)

  datatype Order = Order(
    id: string,
    orderNumber: string,
    customerName: Option<string>,
    customerEmail: Option<string>,
    status: string,
    totalAmount: int,
    createdAt: Timestamp,
    updatedAt: Timestamp)
}

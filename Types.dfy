/** The storefront's records (src/types/index.ts) and the two wrappers every
    state container uses: an optional value and the outcome of a request. */
module Types {

  datatype Option<T> = None | Some(value: T)

  /** What an awaited request produced: a parsed body, or a rejection. The
      HTTP status of a rejection is kept when the server answered at all. */
  datatype Response<T> = Ok(body: T) | Threw(status: Option<int>)

  /** JavaScript truthiness of a string that may be missing: present and non-empty. */
  predicate Truthy(s: Option<string>)
  {
    s.Some? && s.value != ""
  }

  datatype User = User(
    name: string,
    email: string,
    avatar: string,
    publicId: string,
    phone: Option<string>)

  /** A catalogue product; `price` is held in minor currency units. */
  datatype Product = Product(
    id: string,
    name: string,
    price: int,
    description: string,
    category: string,
    publicId: string,
    imageUrl: string)

  datatype CartItem = CartItem(
    id: int,
    cartId: Option<int>,
    quantity: int,
    product: Product)

  /** A category node; a node without `children` has the empty sequence. */
  datatype Category = Category(
    id: string,
    name: string,
    slug: string,
    children: seq<Category>)

  datatype Pagination = Pagination(
    totalItems: int,
    totalPages: int,
    currentPage: int,
    perPage: int)

  datatype OrderItem = OrderItem(
    id: int,
    category: string,
    image: string,
    name: string,
    orderId: string,
    price: int,
    productPublicId: string,
    quantity: int)

  datatype Order = Order(
    id: int,
    publicId: string,
    userId: string,
    addressId: int,
    phoneNumber: string,
    totalPrice: int,
    shippingFee: Option<int>,
    items: seq<OrderItem>,
    createdAt: string,
    status: string)

  datatype Address = Address(
    id: int,
    name: string,
    long: real,
    lat: real)
}

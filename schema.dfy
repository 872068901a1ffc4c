/** The four tables of the marketplace database (users, products, orders,
    reviews) as rows, the identity a request carries in its session, the
    constraints the schema declares, and the single-row lookup that every
    handler performs with `SELECT ... WHERE ... fetchone()`. */
module Schema {

  datatype Option<T> = None | Some(value: T)

  /** The strings the handlers compare `user_type` and `status` against. */
  const FARMER: string := "farmer"
  const BUYER: string := "buyer"
  const PENDING: string := "pending"
  const COMPLETED: string := "completed"

  /** `created_at` columns default to CURRENT_TIMESTAMP, which has
      one-second resolution; a timestamp is a number of seconds. */
  type Timestamp = int

  datatype User = User(
    id: int,
    username: string,
    email: string,
    passwordHash: string,
    userType: string,
    fullName: string,
    phone: string,
    address: string,
    createdAt: Timestamp)

  datatype Product = Product(
    id: int,
    farmerId: int,
    name: string,
    category: string,
    price: real,
    unit: string,
    stockQuantity: int,
    description: string,
    imageFilename: Option<string>,
    createdAt: Timestamp)

  datatype Order = Order(
    id: int,
    buyerId: int,
    farmerId: int,
    productId: int,
    quantity: int,
    totalAmount: real,
    status: string,
    createdAt: Timestamp)

  datatype Review = Review(
    id: int,
    orderId: int,
    buyerId: int,
    farmerId: int,
    productId: int,
    rating: int,
    comment: string,
    createdAt: Timestamp)

  /** The session cookie: empty, or the id, username and user type that a
      successful login stored in it. */
  datatype Session = Anonymous | LoggedIn(userId: int, username: string, userType: string)

  /** The guard `'user_id' in session and session['user_type'] == role`. */
  predicate HasRole(s: Session, role: string) {
    s.LoggedIn? && s.userType == role
  }

  /** The first row (in table order) that satisfies `p`, as `fetchone()`
      returns it, or None when no row does. */
  function FirstIndex<T>(s: seq<T>, p: T -> bool): (r: Option<nat>)
    ensures r.Some? ==> r.value < |s| && p(s[r.value])
    ensures r.Some? ==> forall j :: 0 <= j < r.value ==> !p(s[j])
    ensures r.None? <==> forall j :: 0 <= j < |s| ==> !p(s[j])
  {
    if s == [] then None
    else if p(s[0]) then Some(0)
    else match FirstIndex(s[1..], p)
      case None => None
      case Some(k) => Some(k + 1)
  }

  predicate HasUser(users: seq<User>, id: int) {
    exists i :: 0 <= i < |users| && users[i].id == id
  }

  predicate HasProduct(products: seq<Product>, id: int) {
    exists i :: 0 <= i < |products| && products[i].id == id
  }

  /** The product row `id` exists and its farmer is `farmerId`. */
  predicate ProductOf(products: seq<Product>, id: int, farmerId: int) {
    exists i :: 0 <= i < |products| && products[i].id == id && products[i].farmerId == farmerId
  }

  /** `users`: PRIMARY KEY AUTOINCREMENT ids below the next id to hand
      out, UNIQUE username, UNIQUE email. */
  predicate UsersTable(users: seq<User>, nextId: int) {
    && (forall i :: 0 <= i < |users| ==> users[i].id < nextId)
    && (forall i, j :: 0 <= i < j < |users| ==>
          && users[i].id != users[j].id
          && users[i].username != users[j].username
          && users[i].email != users[j].email)
  }

  /** `products`: PRIMARY KEY AUTOINCREMENT ids. */
  predicate ProductsTable(products: seq<Product>, nextId: int) {
    && (forall i :: 0 <= i < |products| ==> products[i].id < nextId)
    && (forall i, j :: 0 <= i < j < |products| ==> products[i].id != products[j].id)
  }

  /** `orders`: PRIMARY KEY AUTOINCREMENT ids, and every order names a
      product row whose farmer is the order's farmer (what place_order
      copies into the row). */
  predicate OrdersTable(orders: seq<Order>, nextId: int, products: seq<Product>) {
    && (forall i :: 0 <= i < |orders| ==> orders[i].id < nextId)
    && (forall i, j :: 0 <= i < j < |orders| ==> orders[i].id != orders[j].id)
    && (forall i :: 0 <= i < |orders| ==> ProductOf(products, orders[i].productId, orders[i].farmerId))
  }

  /** `reviews`: PRIMARY KEY AUTOINCREMENT ids, and at most one review per
      (order_id, buyer_id), which submit_review maintains. */
  predicate ReviewsTable(reviews: seq<Review>, nextId: int) {
    && (forall i :: 0 <= i < |reviews| ==> reviews[i].id < nextId)
    && (forall i, j :: 0 <= i < j < |reviews| ==>
          && reviews[i].id != reviews[j].id
          && (reviews[i].orderId, reviews[i].buyerId) != (reviews[j].orderId, reviews[j].buyerId))
  }

  /** Rows that keep their id and farmer keep every ProductOf fact, so
      appending products or changing their stock never leaves an order
      without its product. */
  lemma OwnersKept(before: seq<Product>, after: seq<Product>)
    requires |before| <= |after|
    requires forall i :: 0 <= i < |before| ==> after[i].id == before[i].id && after[i].farmerId == before[i].farmerId
    ensures forall id, farmerId :: ProductOf(before, id, farmerId) ==> ProductOf(after, id, farmerId)
  {
  }
}

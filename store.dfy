/** The handlers that change the database: register, add_product,
    place_order, update_order_status and submit_review. Each is a method on
    the store that returns the outcome the handler reports (a JSON
    `success`/`message` pair or a redirect with a flash message). */
module Marketplace {
  import opened Schema

  /** POST /register: redirect to login, or back to the form with a message. */
  datatype RegisterResult = Registered | MissingFields | AccountExists

  /** POST /add_product: redirect to the dashboard, or to login. */
  datatype AddProductResult = ProductAdded | FarmerLoginRequired

  /** POST /place_order: 'Order placed successfully!', 'Please login as
      buyer' or 'Insufficient stock'. */
  datatype PlaceOrderResult = OrderPlaced | BuyerLoginRequired | InsufficientStock

  /** POST /update_order_status: 'Order status updated!' or 'Unauthorized'. */
  datatype StatusResult = StatusUpdated | Unauthorized

  /** POST /submit_review: 'Review submitted successfully!', 'Please login
      as buyer', 'Order not found or not eligible for review' or 'You have
      already reviewed this order'. */
  datatype ReviewResult = ReviewSubmitted | ReviewerLoginRequired | NotEligible | AlreadyReviewed

  /** Some required registration field is the empty string. */
  predicate MissingField(username: string, email: string, password: string, userType: string, fullName: string) {
    username == "" || email == "" || password == "" || userType == "" || fullName == ""
  }

  /** Inserting this username and email would violate a UNIQUE constraint. */
  predicate AccountTaken(users: seq<User>, username: string, email: string) {
    exists i :: 0 <= i < |users| && (users[i].username == username || users[i].email == email)
  }

  /** The product row `id` exists and holds at least `quantity`. */
  predicate InStockFor(products: seq<Product>, id: int, quantity: int) {
    exists i :: 0 <= i < |products| && products[i].id == id && products[i].stockQuantity >= quantity
  }

  /** The eligibility query of submit_review finds a row: order `orderId`
      belongs to `buyerId`, is completed, and joins with its product. */
  predicate Eligible(orders: seq<Order>, products: seq<Product>, orderId: int, buyerId: int) {
    exists i :: 0 <= i < |orders| && EligibleRow(orders[i], products, orderId, buyerId)
  }

  predicate EligibleRow(o: Order, products: seq<Product>, orderId: int, buyerId: int) {
    o.id == orderId && o.buyerId == buyerId && o.status == COMPLETED && HasProduct(products, o.productId)
  }

  /** A review of `orderId` by `buyerId` is already stored. */
  predicate Reviewed(reviews: seq<Review>, orderId: int, buyerId: int) {
    exists i :: 0 <= i < |reviews| && reviews[i].orderId == orderId && reviews[i].buyerId == buyerId
  }

  class Store {
    var users: seq<User>
    var products: seq<Product>
    var orders: seq<Order>
    var reviews: seq<Review>
    // The next id each AUTOINCREMENT column hands out.
    var nextUserId: int
    var nextProductId: int
    var nextOrderId: int
    var nextReviewId: int

    /** The schema's constraints and the invariants the handlers keep. */
    ghost predicate Valid()
      reads this
    {
      && UsersTable(users, nextUserId)
      && ProductsTable(products, nextProductId)
      && OrdersTable(orders, nextOrderId, products)
      && ReviewsTable(reviews, nextReviewId)
    }

    /** init_db on a new database file: four empty tables. */
    constructor ()
      ensures Valid()
      ensures users == [] && products == [] && orders == [] && reviews == []
      ensures nextUserId == 1 && nextProductId == 1 && nextOrderId == 1 && nextReviewId == 1
    {
      users, products, orders, reviews := [], [], [], [];
      nextUserId, nextProductId, nextOrderId, nextReviewId := 1, 1, 1, 1;
    }

    /** POST /register. `passwordHash` is what the hashing library made of
        `password`. */
    method Register(username: string, email: string, password: string, passwordHash: string,
                    userType: string, fullName: string, phone: string, address: string, now: Timestamp)
      returns (r: RegisterResult)
      requires Valid()
      modifies this`users, this`nextUserId
      ensures Valid()
      ensures r == MissingFields <==> MissingField(username, email, password, userType, fullName)
      ensures r == AccountExists <==>
        !MissingField(username, email, password, userType, fullName) && AccountTaken(old(users), username, email)
      ensures r != Registered ==> users == old(users) && nextUserId == old(nextUserId)
      ensures r == Registered ==>
        && users == old(users) + [User(old(nextUserId), username, email, passwordHash, userType, fullName, phone, address, now)]
        && nextUserId == old(nextUserId) + 1
    {
      if MissingField(username, email, password, userType, fullName) {
        return MissingFields;
      }
      var clash := FirstIndex(users, (u: User) => u.username == username || u.email == email);
      if clash.Some? {
        return AccountExists;
      }
      users := users + [User(nextUserId, username, email, passwordHash, userType, fullName, phone, address, now)];
      nextUserId := nextUserId + 1;
      r := Registered;
    }

    /** POST /add_product, with the uploaded image already saved under
        `imageFilename` (or no image). No field is validated. */
    method AddProduct(session: Session, name: string, category: string, price: real, unit: string,
                      stockQuantity: int, description: string, imageFilename: Option<string>, now: Timestamp)
      returns (r: AddProductResult)
      requires Valid()
      modifies this`products, this`nextProductId
      ensures Valid()
      ensures r == ProductAdded <==> HasRole(session, FARMER)
      ensures r != ProductAdded ==> products == old(products) && nextProductId == old(nextProductId)
      ensures r == ProductAdded ==>
        && products == old(products) + [Product(old(nextProductId), session.userId, name, category, price, unit,
                                                stockQuantity, description, imageFilename, now)]
        && nextProductId == old(nextProductId) + 1
    {
      if !HasRole(session, FARMER) {
        return FarmerLoginRequired;
      }
      var ps := products;
      products := products + [Product(nextProductId, session.userId, name, category, price, unit,
                                      stockQuantity, description, imageFilename, now)];
      OwnersKept(ps, products);
      nextProductId := nextProductId + 1;
      r := ProductAdded;
    }

    /** POST /place_order: check the role and the stock, insert a pending
        order priced at price * quantity, and take the quantity off the
        product's stock. `quantity` is not required to be positive. */
    method PlaceOrder(session: Session, productId: int, quantity: int, now: Timestamp)
      returns (r: PlaceOrderResult)
      requires Valid()
      modifies this`orders, this`products, this`nextOrderId
      ensures Valid()
      ensures r == BuyerLoginRequired <==> !HasRole(session, BUYER)
      ensures r == InsufficientStock <==> HasRole(session, BUYER) && !InStockFor(old(products), productId, quantity)
      ensures r != OrderPlaced ==> unchanged(this)
      ensures r == OrderPlaced ==> InStockFor(old(products), productId, quantity)
      ensures r == OrderPlaced ==> nextOrderId == old(nextOrderId) + 1 && |products| == |old(products)|
      ensures r == OrderPlaced ==> forall k :: 0 <= k < |old(products)| && old(products)[k].id == productId ==>
        var p := old(products)[k];
        && orders == old(orders) + [Order(old(nextOrderId), session.userId, p.farmerId, productId, quantity,
                                          p.price * (quantity as real), PENDING, now)]
        && products[k] == p.(stockQuantity := p.stockQuantity - quantity)
        && products[k].stockQuantity >= 0
      ensures r == OrderPlaced ==> forall j :: 0 <= j < |products| && old(products)[j].id != productId ==>
        products[j] == old(products)[j]
    {
      if !HasRole(session, BUYER) {
        return BuyerLoginRequired;
      }
      var found := FirstIndex(products, (p: Product) => p.id == productId);
      if found.None? || products[found.value].stockQuantity < quantity {
        return InsufficientStock;
      }
      var k := found.value;
      var product := products[k];
      // The id is the primary key, so row k is the only row the UPDATE touches.
      assert forall j :: 0 <= j < |products| && products[j].id == productId ==> j == k;
      var total := product.price * (quantity as real);
      orders := orders + [Order(nextOrderId, session.userId, product.farmerId, productId, quantity, total, PENDING, now)];
      nextOrderId := nextOrderId + 1;
      var ps := products;
      // Every row with this id gives up `quantity` units of stock.
      products := seq(|ps|, i requires 0 <= i < |ps| =>
        if ps[i].id == productId then ps[i].(stockQuantity := ps[i].stockQuantity - quantity) else ps[i]);
      OwnersKept(ps, products);
      assert ps == old(products);
      assert products[k] == product.(stockQuantity := product.stockQuantity - quantity);
      forall j | 0 <= j < |old(products)| && old(products)[j].id == productId
        ensures orders == old(orders) + [Order(old(nextOrderId), session.userId, old(products)[j].farmerId, productId,
                                               quantity, old(products)[j].price * (quantity as real), PENDING, now)]
        ensures products[j] == old(products)[j].(stockQuantity := old(products)[j].stockQuantity - quantity)
      {
        assert j == k;
        assert old(products)[j].price * (quantity as real) == total;
      }
      r := OrderPlaced;
    }

    /** POST /update_order_status: set the status of the order with this id
        owned by the session's farmer. The status is any string, and the
        reply is a success even when no row matched. */
    method UpdateOrderStatus(session: Session, orderId: int, status: string) returns (r: StatusResult)
      requires Valid()
      modifies this`orders
      ensures Valid()
      ensures r == Unauthorized <==> !HasRole(session, FARMER)
      ensures r == Unauthorized ==> orders == old(orders)
      ensures |orders| == |old(orders)|
      ensures r == StatusUpdated ==> forall i :: 0 <= i < |orders| ==>
        orders[i] == if old(orders)[i].id == orderId && old(orders)[i].farmerId == session.userId
                     then old(orders)[i].(status := status)
                     else old(orders)[i]
    {
      if !HasRole(session, FARMER) {
        return Unauthorized;
      }
      var os := orders;
      // Every row with this id and the session's farmer gets the new status.
      orders := seq(|os|, i requires 0 <= i < |os| =>
        if os[i].id == orderId && os[i].farmerId == session.userId then os[i].(status := status) else os[i]);
      r := StatusUpdated;
    }

    /** POST /submit_review: a buyer may review a completed order of theirs
        once. The review takes its farmer and product from the order row.
        The rating is not range-checked. */
    method SubmitReview(session: Session, orderId: int, rating: int, comment: string, now: Timestamp)
      returns (r: ReviewResult)
      requires Valid()
      modifies this`reviews, this`nextReviewId
      ensures Valid()
      ensures r == ReviewerLoginRequired <==> !HasRole(session, BUYER)
      ensures r == NotEligible <==> HasRole(session, BUYER) && !Eligible(orders, products, orderId, session.userId)
      ensures r == AlreadyReviewed <==>
        && HasRole(session, BUYER)
        && Eligible(orders, products, orderId, session.userId)
        && Reviewed(old(reviews), orderId, session.userId)
      ensures r != ReviewSubmitted ==> reviews == old(reviews) && nextReviewId == old(nextReviewId)
      ensures r == ReviewSubmitted ==> nextReviewId == old(nextReviewId) + 1
      ensures r == ReviewSubmitted ==> forall i :: 0 <= i < |orders| && orders[i].id == orderId ==>
        reviews == old(reviews) + [Review(old(nextReviewId), orderId, session.userId, orders[i].farmerId,
                                          orders[i].productId, rating, comment, now)]
      ensures r == ReviewSubmitted ==>
        |reviews| > 0 && ProductOf(products, reviews[|reviews| - 1].productId, reviews[|reviews| - 1].farmerId)
    {
      if !HasRole(session, BUYER) {
        return ReviewerLoginRequired;
      }
      var buyer := session.userId;
      var found := FirstIndex(orders, (o: Order) => o.id == orderId && o.buyerId == buyer && o.status == COMPLETED);
      if found.None? {
        return NotEligible;
      }
      var order := orders[found.value];
      assert forall i :: 0 <= i < |orders| && orders[i].id == orderId ==> i == found.value;
      var joined := FirstIndex(products, (p: Product) => p.id == order.productId);
      if joined.None? {
        return NotEligible;
      }
      assert EligibleRow(order, products, orderId, buyer);
      var existing := FirstIndex(reviews, (v: Review) => v.orderId == orderId && v.buyerId == buyer);
      if existing.Some? {
        return AlreadyReviewed;
      }
      // sqlite3.Row answers order['farmer_id'] and order['product_id'] with
      // the first column of that name, which is the order's own (o.*).
      reviews := reviews + [Review(nextReviewId, orderId, buyer, order.farmerId, order.productId, rating, comment, now)];
      nextReviewId := nextReviewId + 1;
      assert ProductOf(products, order.productId, order.farmerId);
      r := ReviewSubmitted;
    }
  }
}

/** Request sequences against a fresh database, proved from the handlers'
    contracts alone: what a client of the store can rely on. Every table
    row is put there by a handler. */
module Scenarios {
  import opened Schema
  import opened Marketplace

  /** Two buyers ask for 3 units each of a product with 5 in stock, one
      after the other: the first order is placed and leaves 2, the second
      is refused for insufficient stock. */
  method TwoBuyersShareScarceStock() returns (first: PlaceOrderResult, second: PlaceOrderResult, left: int)
    ensures first == OrderPlaced && second == InsufficientStock && left == 2
  {
    var store := new Store();
    var grower := LoggedIn(1, "grower", FARMER);
    var added := store.AddProduct(grower, "Tomato", "vegetables", 2.5, "kg", 5, "Ripe", None, 100);
    assert store.products[0].id == 1 && store.products[0].stockQuantity == 5;
    first := store.PlaceOrder(LoggedIn(2, "ana", BUYER), 1, 3, 200);
    assert store.products[0].stockQuantity == 2;
    second := store.PlaceOrder(LoggedIn(3, "ben", BUYER), 1, 3, 201);
    left := store.products[0].stockQuantity;
  }

  /** A fresh store after farmer 1 lists 10 onions. */
  method OnionListed() returns (store: Store, added: AddProductResult)
    ensures fresh(store) && store.Valid()
    ensures added == ProductAdded
    ensures store.products == [Product(1, 1, "Onion", "", 1.0, "", 10, "", None, 100)]
    ensures store.orders == [] && store.nextOrderId == 1
    ensures store.reviews == []
  {
    store := new Store();
    added := store.AddProduct(LoggedIn(1, "grower", FARMER), "Onion", "", 1.0, "", 10, "", None, 100);
  }

  /** Then buyer 2 orders 4 of them: the order is pending and 6 onions are
      left. */
  method OnionOrdered() returns (store: Store, placed: PlaceOrderResult)
    ensures fresh(store) && store.Valid()
    ensures placed == OrderPlaced
    ensures store.products == [Product(1, 1, "Onion", "", 1.0, "", 6, "", None, 100)]
    ensures store.orders == [Order(1, 2, 1, 1, 4, 4.0, PENDING, 200)]
    ensures store.reviews == []
  {
    var added;
    store, added := OnionListed();
    placed := store.PlaceOrder(LoggedIn(2, "ana", BUYER), 1, 4, 200);
    assert store.products[0] == Product(1, 1, "Onion", "", 1.0, "", 6, "", None, 100);
  }

  /** A buyer cannot review an order that is still pending. */
  method ReviewWaitsForCompletion() returns (early: ReviewResult)
    ensures early == NotEligible
  {
    var store, placed := OnionOrdered();
    early := store.SubmitReview(LoggedIn(2, "ana", BUYER), 1, 5, "", 300);
  }

  /** Once the farmer has marked the order completed, the buyer's first
      review is accepted and a second one is refused. */
  method ReviewOncePerOrder() returns (updated: StatusResult, first: ReviewResult, second: ReviewResult)
    ensures updated == StatusUpdated && first == ReviewSubmitted && second == AlreadyReviewed
  {
    var store, placed := OnionOrdered();
    var ana := LoggedIn(2, "ana", BUYER);
    updated := store.UpdateOrderStatus(LoggedIn(1, "grower", FARMER), 1, COMPLETED);
    assert store.orders[0].status == COMPLETED;
    assert EligibleRow(store.orders[0], store.products, 1, 2);
    first := store.SubmitReview(ana, 1, 5, "", 400);
    assert store.reviews[0].orderId == 1 && store.reviews[0].buyerId == 2;
    second := store.SubmitReview(ana, 1, 1, "", 500);
  }

  /** A second account with a username or an email already taken is
      refused. */
  method NoDuplicateAccounts() returns (first: RegisterResult, sameName: RegisterResult, sameEmail: RegisterResult)
    ensures first == Registered && sameName == AccountExists && sameEmail == AccountExists
  {
    var store := new Store();
    first := store.Register("ana", "ana@farm.example", "pw", "h1", BUYER, "Ana", "", "", 100);
    assert store.users[0].username == "ana";
    sameName := store.Register("ana", "other@farm.example", "pw", "h2", BUYER, "Ana Two", "", "", 101);
    assert store.users[0].email == "ana@farm.example";
    sameEmail := store.Register("ana2", "ana@farm.example", "pw", "h3", FARMER, "Ana Three", "", "", 102);
  }
}

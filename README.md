# AgriConnect marketplace — a Dafny model of its business rules

AgriConnect is a small farmer-to-buyer marketplace: farmers list products,
buyers place orders against the stock, farmers move orders through free-form
statuses, and buyers review completed orders. Behind every HTTP handler is
SQL against four tables (users, products, orders, reviews). This project
models those handlers without the SQL and HTTP layers:

- `schema.dfy` (module `Schema`): the rows of the four tables. It also has the
  session identity, the constraints the schema declares (AUTOINCREMENT
  primary keys, UNIQUE username and email), and the first-match lookup that
  `fetchone()` performs.
- `store.dfy` (module `Marketplace`): a `Store` class whose fields are the four
  tables and the next AUTOINCREMENT id of each. It has one method per
  state-changing handler: `Register`, `AddProduct`, `PlaceOrder`,
  `UpdateOrderStatus` and `SubmitReview`. Each returns the outcome that the
  handler reports as JSON or as a redirect. `Valid()` is the store's
  invariant: ids are unique and below the next id, usernames and emails are
  unique, every order names an existing product that belongs to the order's
  farmer, and there is at most one review per (order, buyer). Every method
  keeps it.
- `catalog.dfy` (module `Catalog`): the read-only queries as pure functions.
  These are the product listing (in stock, optional category, optional
  case-insensitive search, newest first), its category list, and the home
  page (the six newest products in stock).
- `auth.dfy` (module `Auth`): the session after a login attempt.
- `scenarios.dfy` (module `Scenarios`): request sequences on a fresh store,
  proved only from the handlers' contracts. One is two buyers competing for
  scarce stock; the others are the review-once rule and duplicate
  registrations.

The session cookie is an explicit `Session` parameter. The clock
(`CURRENT_TIMESTAMP`) is an explicit `now` parameter. Handlers run one after
another, each as one atomic step.

The model follows the code, which checks less than one might expect:
- No input is validated beyond what the handlers check. `quantity` may be
  zero or negative: a negative quantity raises the product's stock, and zero
  leaves it unchanged. `rating` is not range-checked, the new status is any
  string, and `user_type` is not checked on registration.
- `add_product` stores whatever stock it is given, negative included. So
  "stock is never negative" is not an invariant of the store. What holds is
  that a successful order leaves its product's stock at old stock minus
  quantity, and that this is never negative.
- The review's `farmer_id` and `product_id` come from the order row. The
  eligibility query selects `o.*` before the product's columns, and
  `sqlite3.Row` returns the first column of a given name. The store
  invariant shows that these are the farmer and id of the order's product
  anyway (`SubmitReview`'s last postcondition).
- Order statuses have no transition rules. A farmer may set any status on
  any order they own.

## Model

| member | source | states |
|---|---|---|
| `Schema.FirstIndex` | app.py:313 | The row `fetchone()` returns is the first row that satisfies the condition. None means no row does. |
| `Marketplace.Store.constructor` | app.py:15-83 | `init_db` on a new database gives four empty tables, every AUTOINCREMENT counter at 1, and the invariant holds. |
| `Marketplace.Store.Register` | app.py:110-139 | Missing fields are reported iff a required field is empty. The username-or-email error comes iff the fields are present and some user already has that username or email. Both failures leave the users table unchanged. Otherwise exactly one user row is appended, with the next id. Usernames and emails stay unique. |
| `Marketplace.Store.AddProduct` | app.py:272-302 | The product is added iff the session is a farmer's. Exactly one row is appended, owned by the session user and carrying the form's values unvalidated. Otherwise nothing changes. |
| `Marketplace.Store.PlaceOrder` | app.py:304-333 | Without a buyer session the reply is the login message. With one, the reply is "Insufficient stock" iff no product has that id with stock of at least the quantity. Both failures change nothing. On success one pending order is appended with the session buyer, the product's farmer, the quantity and total = price × quantity. That product's stock becomes old stock − quantity, which is ≥ 0. Every other product and the users and reviews stay as they were. |
| `Marketplace.Store.UpdateOrderStatus` | app.py:335-350 | Unauthorized iff the session is not a farmer's, and then nothing changes. Otherwise success is reported even if nothing matched. Exactly the orders with that id and the session farmer get the new status. All other orders, all other fields and all other tables stay unchanged. |
| `Marketplace.Store.SubmitReview` | app.py:352-390 | Login message iff the session is not a buyer's. Not eligible iff no completed order with that id belongs to the buyer and joins a product. Already reviewed iff the order is eligible and the buyer has reviewed it before. Only success appends a review: exactly one, with the order's farmer and product, which are the product's own farmer and id. At most one review per (order, buyer) is kept. |
| `Catalog.ContainsIffSomeOffset` | app.py:228-229 | The scanning substring test holds iff some suffix of the text starts with the search text. This is the meaning of `LIKE '%search%'`. |
| `Catalog.LikeIgnoresCase` | app.py:228-229 | The search match ignores ASCII letter case on both sides. It holds iff the folded search text occurs at some offset of the folded column. |
| `Catalog.Where` | app.py:215-229 | Each product appears as often as in the table if it passes the filter, and not at all otherwise. The filter is: stock > 0, the farmer joins a user, the category is equal when one is given, and the name or description matches when a search is given. The join is read as "some user has the farmer's id", which is the SQL join because user ids are the primary key. |
| `Catalog.InsertByDate` | app.py:231 | Inserting into a newest-first list keeps it newest first and adds exactly that one row. |
| `Catalog.SortByDate` | app.py:231 | `ORDER BY created_at DESC` returns a permutation of its input that is newest first. |
| `Catalog.ProductList` | app.py:209-239 | The listing is newest first. It holds exactly the products that pass the filter, each as often as in the table, and every row shown passes the filter. |
| `Catalog.HomePage` | app.py:90-102 | At most 6 products are shown, all in stock with a known farmer. They are a prefix of the unfiltered newest-first listing. Exactly min(6, length of that listing) rows are shown. If fewer than 6 are shown, every in-stock product of a known farmer is among them. |
| `Catalog.HomePageShowsNewest` | app.py:97-99 | An in-stock product of a known farmer that is left off the home page is no newer than any product shown there. |
| `Catalog.Categories` | app.py:235 | The category list holds every category of every product, in stock or not, and each only once. |
| `Auth.Login` | app.py:145-165 | If the first user with that username has a hash matching the password, the session becomes that user's id, username and type. If the password is wrong, or no user has that username, the session the request came with is kept unchanged, logged in or not. |
| `Auth.LoginFindsTheAccount` | app.py:151-165 | With usernames unique, the user with that username decides the outcome. A matching password gives that user's session, and a wrong one keeps the request's session. The session changes only if some user has that username and a matching password. |
| `Scenarios.TwoBuyersShareScarceStock` | app.py:313-328 | Stock 5 and two sequential orders of 3: the first is placed and leaves 2, and the second gets "Insufficient stock". |
| `Scenarios.ReviewWaitsForCompletion` | app.py:363-372 | A review of an order that is still pending is refused as not eligible. |
| `Scenarios.ReviewOncePerOrder` | app.py:344-346 | After the farmer sets the status to completed, the first review is accepted and the second is refused as already reviewed. |
| `Scenarios.NoDuplicateAccounts` | app.py:22-23 | A second registration is refused when the username is taken, and also when the email is taken. |

## Left out

- Password hashing and checking are library calls. `Register` takes the hash
  as the parameter `passwordHash`, and `Login` takes the check as
  `passwordMatches`.
- Image upload (`secure_filename`, the random `uuid4` name, the file write)
  is I/O. `AddProduct` takes the stored file name, or none, as a parameter.
- Logout (`session.clear()`) is the `Anonymous` session. The form routes
  (`register_form` with its user-type check, `login_form`,
  `add_product_form`) only pick a template.
- The dashboards and the product detail page are display-only joins that add
  names and phone numbers, and are not modelled. The home page and the
  product listing also select the farmer's `full_name` and `address` as
  `farmer_name` and `farmer_location`. `HomePage` and `ProductList` return
  the product rows without those two columns, and keep only the join's
  effect on which rows appear. Templates, `flash`, `redirect` and `jsonify`
  are not modelled either.
- Malformed requests are not modelled: a missing form field gives a 400, and
  a failed `int()` or `float()` conversion gives a 500. The handlers receive
  the parsed values.
- `Marketplace.Store.PlaceOrder`: integers are unbounded, but SQLite stores
  64-bit integers, and sqlite3 refuses to bind a Python int outside that
  range (an OverflowError, so a 500 and no change). A `quantity` below
  -2^63 passes the stock check and is then refused at the INSERT, but the
  model places the order. A `stock_quantity - quantity` beyond 64 bits is
  stored by SQLite as a REAL, while the model keeps an exact integer.
- `Marketplace.Store.AddProduct`: a `stock_quantity` outside the 64-bit range
  fails to bind and gives a 500. The model appends the row with any integer.
- `Marketplace.Store.UpdateOrderStatus`: an `order_id` outside the 64-bit
  range fails to bind and gives a 500. The model reports success and changes
  nothing.
- `Marketplace.Store.SubmitReview`: an `order_id` or `rating` outside the
  64-bit range fails to bind and gives a 500. The model checks eligibility,
  or stores the rating, with any integer.
- Prices are exact reals, so floating-point rounding of `price * quantity` is
  not modelled. Neither are NaN and infinite prices, which `float()` accepts
  and a `real` cannot hold: a NaN price is stored as NULL and fails the
  `NOT NULL` constraint of `price` (a 500), and an infinite price ordered
  with quantity 0 gives a NaN `total_amount` that fails the `NOT NULL`
  constraint of `total_amount` the same way.
- In `LIKE`, `%` and `_` inside the search text act as wildcards. The model
  reads them as ordinary characters. Case folding covers ASCII letters only,
  as SQLite's does.
- When two products have the same `created_at`, SQL leaves their order
  unspecified. The model picks one order and claims only "newest first" and
  "the same rows".
- SQLite does not enforce foreign keys by default. A product whose farmer id
  names no user is therefore kept in the table, and the catalog's join with
  users leaves it out, as the model does.
- Concurrent requests, transactions and connection handling are not
  modelled. Handlers are sequential atomic steps. The race between two
  place_order requests is out of reach, and only their sequential outcome
  is modelled.
- The client-side script and the configuration constants are not part of
  this model.

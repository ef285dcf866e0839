# Storefront pages: fetch lifecycle and product derivations

This project models the logic inside the two page components of a small
storefront client that reads a product catalog from a REST API:

- the **home page** (`src/pages/Home.jsx`). It fetches categories and then
  products, one request after the other. It derives two product sections
  from the list it holds:
  - *featured*: the first four products in their own order;
  - *latest*: a sorted copy, newest `creationAt` first, cut to four.
- the **products page** (`src/pages/Products.jsx`). It fetches one product
  list through a `.then/.then/.catch/.finally` chain. A not-OK reply becomes
  an error that carries the body's `message`, or a fixed message when the
  body has none.

Each page holds its own state fields. They start as "loading, no error, no
data", and one fetch cycle updates them. Rendering picks the loading view
first, then the error view when `error` is truthy, then the data. Product
cards fall back to a placeholder image and to an empty category label.

Layout:

- `catalog.dfy` (module `Catalog`): the API records (`Product`, `Category`),
  JavaScript truthiness of an optional string, and the card fallbacks
  (`ImageSrc`, `CategoryLabel`, `Cards`).
- `home.dfy` (module `Home`):
  - `Featured` and `Latest`. `SortByRecency` is a stable insertion sort that
    stands for `Array.prototype.sort` with the comparator of line 45.
  - the page state `HomeState`, with its specification `AfterFetch` and the
    render gate `View`.
  - class `HomePage`, whose methods are the steps of `fetchData`.
- `products.dfy` (module `Products`): the `Reply` outcomes, `NotOkMessage`,
  the page state with `AfterFetch` and `View`, and class `ProductsPage`,
  whose methods are the handlers of the fetch chain.

The classes hold the fields the components keep in `useState`. Each method
states the whole new state in terms of the old one. The whole-cycle methods
(`FetchData`, `Fetch`) are proved equal to the pure `AfterFetch` functions,
and the lemmas about the lifecycle are stated over those functions.

Behaviour of the code worth noting:

- The home page runs its two requests one after the other, not
  concurrently.
- Categories written before a later products failure stay in the state. The
  error view hides them, but they are not discarded.
- Neither page guards against writes after unmount.
- The home page never checks the HTTP status.
- `Array.prototype.sort` is stable (required since ECMAScript 2019), so in
  `latest` products with equal timestamps keep their input order.
  `SortByRecency` does the same, and `SortIsStable` proves it. No policy
  exists for unparsable dates.

## Model

| member | source | states |
|---|---|---|
| `Catalog.ImageSrc` | src/pages/Home.jsx:94 | the card image is the product's first image when it has one, otherwise the placeholder `https://placehold.co/600x400` (same expression at Home.jsx:159 and Products.jsx:55) |
| `Catalog.CategoryLabel` | src/pages/Home.jsx:103 | the category label is the category's name, or empty when the product has no category (same at Home.jsx:172 and Products.jsx:64) |
| `Catalog.CardOf` | src/pages/Products.jsx:49-72 | a card carries the product's id, title, description and price. Its image is the first image or the placeholder, and its category label is the category's name or empty |
| `Catalog.Cards` | src/pages/Products.jsx:48-73 | one card per product, in order: the i-th card is exactly the card of the i-th product |
| `Catalog.MissingImageUsesPlaceholder` | src/pages/Products.jsx:55 | a product whose image list is absent or empty is rendered with the placeholder, not a failure |
| `Home.Featured` | src/pages/Home.jsx:41 | featured has length min(4, n) and is the prefix of the products in their original order; four or fewer products (including none) are returned whole |
| `Home.Insert` | src/pages/Home.jsx:44-45 | one insertion step of the sort adds exactly the inserted product: the result is the old list's multiset plus that product |
| `Home.InsertKeepsSorted` | src/pages/Home.jsx:44-45 | inserting into a newest-first list keeps it newest first |
| `Home.SortByRecency` | src/pages/Home.jsx:44-45 | the sorted copy is a permutation of the products (same multiset, same length) and is ordered by `creationAt`, non-increasing |
| `Home.Latest` | src/pages/Home.jsx:44-46 | latest has length min(4, n), is newest first, is a prefix of the sorted copy and draws only on the input's products, never more copies than the input holds |
| `Home.LatestAreMostRecent` | src/pages/Home.jsx:44-46 | no product left out of latest is newer than any product shown in it |
| `Home.InsertKeepsTies` | src/pages/Home.jsx:44-45 | one insertion step never moves the inserted product past one with the same timestamp |
| `Home.SortIsStable` | src/pages/Home.jsx:44-45 | for every timestamp, the products carrying it appear in the sorted copy in the same order as in the input (the stable sort of ECMAScript 2019) |
| `Home.SortKeepsSortedInput` | src/pages/Home.jsx:44-45 | sorting products that are already newest first returns them unchanged, ties included, as the stable runtime sort does |
| `Home.LatestOfSortedIsFeatured` | src/pages/Home.jsx:41-46 | when the products arrive newest first, latest and featured are the same list; with ties this relies on the sort being stable |
| `Home.FetchCycleOutcome` | src/pages/Home.jsx:5-31 | after one fetch cycle from the mounted state, loading is false. The error is null exactly when both steps succeeded, and otherwise exactly "Failed to fetch data". A products throw keeps the categories written and leaves products empty. A categories throw leaves both empty |
| `Home.View` | src/pages/Home.jsx:37-46 | loading shows the loading view; otherwise a truthy error shows the error view with that message; otherwise the data view with cards for featured and latest and the stored categories |
| `Home.ViewsOfOneCycle` | src/pages/Home.jsx:5-38 | the page shows the loading view when mounted. After the cycle it shows the error view with "Failed to fetch data" exactly when a step threw, and the data view exactly when both succeeded |
| `Home.HomePage.constructor` | src/pages/Home.jsx:5-8 | the page mounts with loading true, error null, products and categories empty |
| `Home.HomePage.ReceiveCategories` | src/pages/Home.jsx:17-18 | storing the categories changes only the categories |
| `Home.HomePage.ReceiveProducts` | src/pages/Home.jsx:24-25 | storing the products changes only the products |
| `Home.HomePage.FailThrown` | src/pages/Home.jsx:26-28 | a throw sets error to "Failed to fetch data" and changes nothing else |
| `Home.HomePage.Settle` | src/pages/Home.jsx:29-31 | the `finally` clears loading and changes nothing else |
| `Home.HomePage.FetchData` | src/pages/Home.jsx:11-31 | the step-by-step cycle leaves exactly the state `Home.AfterFetch` specifies |
| `Products.NotOkMessage` | src/pages/Products.jsx:12-14 | the error message is the body's `message` when it is truthy, otherwise "Failed to fetch products"; either way it is non-empty |
| `Products.FetchOutcome` | src/pages/Products.jsx:9-26 | after the chain, loading is false. An OK reply writes the items and leaves error null. On a failure the items stay empty. A not-OK reply stores the selected message, and a throw stores the thrown error's message |
| `Products.View` | src/pages/Products.jsx:28-29 | loading shows "Loading products..."; otherwise a truthy error shows "Error: " followed by the message; otherwise the list of cards of the items |
| `Products.NotOkShowsError` | src/pages/Products.jsx:12-29 | a not-OK reply always ends in the error view, with the body's message or the fixed one |
| `Products.EmptyThrowShowsEmptyList` | src/pages/Products.jsx:21-29 | a throw whose message is empty leaves error falsy, so the page shows an empty list rather than an error |
| `Products.ProductsPage.constructor` | src/pages/Products.jsx:5-7 | the page mounts with loading true, error null and no items |
| `Products.ProductsPage.Succeed` | src/pages/Products.jsx:18-20 | an OK reply's data becomes the items and nothing else changes |
| `Products.ProductsPage.FailThrown` | src/pages/Products.jsx:21-24 | the `catch` stores the error's message and changes nothing else |
| `Products.ProductsPage.FailNotOk` | src/pages/Products.jsx:12-14 | a not-OK reply stores the selected, non-empty message and changes nothing else |
| `Products.ProductsPage.Settle` | src/pages/Products.jsx:25 | the `finally` clears loading and changes nothing else |
| `Products.ProductsPage.Fetch` | src/pages/Products.jsx:9-26 | the handler chain leaves exactly the state `Products.AfterFetch` specifies |

## Left out

- Network I/O is not modelled: `fetch`, `res.json()` and `console.error`. The endpoint URLs and their `limit`/`offset` query values are left out too. Each request is an abstract outcome passed to the page methods. For the home page this is `Step` (parsed body, or a throw). For the products page it is `Reply` (OK with data, not-OK with an optional body message, or a throw with its message).
- Home page replies with a non-OK status: the code never looks at the status and stores whatever body parsed. The model only covers bodies that are lists of the expected records. An error object stored as categories or products would only fail later, during rendering, and that is not modelled.
- Date parsing: `creationAt` is an integer timestamp, and the comparator `new Date(b) - new Date(a)` is integer comparison. Unparsable dates give a NaN comparator and an undefined order, and are not modelled.
- "The input is not changed" by `latest`: the derivations are functions over immutable sequence values, so they cannot change the page's `products`. No separate lemma states this.
- React machinery is not modelled: hook scheduling, when `useEffect` runs, re-renders, and any unmount or concurrency race. The code has no unmount guard, so there is nothing to model for it.
- The products page's `err.message` can hold a non-string value, or a thrown value can lack a message. Both are left out: the body message is an optional string, and a throw carries a string.
- An image list whose first entry is `null` would also fall back to the placeholder under `??`. Image URLs are modelled as strings only.
- Presentation is left out: markup, CSS classes, `Link` targets (`/products`, `/products/${p.id}`, `/products/new`), the hero text and the category tiles' own images.

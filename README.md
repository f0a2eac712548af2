# TechNova storefront: page rules, modelled in Dafny

This project models the decision and validation rules of the TechNova
storefront's pages and proves what those rules promise:

- **Shop** (`shop.dfy`, with `text.dfy` for `startsWith`/`includes`/`toLowerCase`):
  the catalogue filter (search term, inclusive price range, category and brand
  selections, an empty selection meaning "any"), the checkbox toggle, "clear
  filters", the initial category from the query string, and the category list,
  brand list and `maxPrice` derived from the catalogue. The page's four
  `useState` slots are the fields of the class `ShopPage`.
- **Admin layout** (`admin_layout.dfy`): the authentication gate (redirect,
  loading placeholder, nothing, bare page, page with sidebar and header), the
  header title `getPageTitle`, and the sidebar's `isActive` rule over the
  ordered `adminNavItems`.
- **Add product** (`add_product.dfy`): the product schema, the form defaults,
  the record written on submit and the "no store, no write" guard.
- **Checkout** (`checkout.dfy`): the shipping/payment schema, the redirect
  away from an empty cart, the order summary, and the submit transition on the
  class `CheckoutSession` (clear the cart, then navigate with the total from
  before the clear).
- **Contact** (`contact.dfy`): the message schema and the reset after a
  successful submit, on the class `ContactPage`.

`catalog.dfy` holds the product and cart-line records of `src/lib/types.ts`,
`wrappers.dfy` the `Option` type that stands for `null`/`undefined`.

Modelling choices:

- Prices are non-negative integers (minor units); the schema's other numbers
  are integers after coercion.
- `toLowerCase` is ASCII-only.
- The validation library's e-mail check is a parameter `isEmail: string -> bool`.
- A schema's result is the list of rejected fields, in schema order (empty = accepted).
- `Math.max()` over an empty catalogue yields `-Infinity`; the model returns
  `NoPrice = -1`, which, like `-Infinity`, lies below every price.
- `searchParams.get('category')` is an `Option<string>`. Following JavaScript
  truthiness, an empty category string selects nothing.
- Navigation is recorded as the list of routes pushed so far.

## Model

| member | source | states |
|---|---|---|
| `Text.ContainsIffOccurs` | src/app/shop/page.tsx:52 | the front-to-back substring search holds exactly when the needle occurs at some index |
| `Text.Contains` | src/app/shop/page.tsx:52 | `includes`: a substring is never longer than the string that holds it |
| `Text.Lower` | src/app/shop/page.tsx:52 | `toLowerCase` keeps the length, leaves no upper-case ASCII letter and changes no other character |
| `Text.StartsWith` | src/app/admin/layout.tsx:70 | `startsWith`: the string agrees with the prefix at every index of the prefix, and a prefix as long as the string is the string |
| `Shop.FilterMembership` | src/app/shop/page.tsx:50-58 | a product is shown iff it is in the catalogue, its lower-cased name contains the lower-cased term, `low <= price <= high`, the category selection is empty or holds its category, and the brand selection is empty or holds its brand |
| `Shop.FilterCount` | src/app/shop/page.tsx:51 | nothing is added or duplicated: a matching product keeps its catalogue multiplicity, any other has none |
| `Shop.FilterSubsequence` | src/app/shop/page.tsx:51 | nothing is reordered: the shown list is a subsequence of the catalogue |
| `Shop.FilterKeepsAll` | src/app/shop/page.tsx:51-57 | when every product passes, the filter returns the catalogue unchanged |
| `Shop.Matches` | src/app/shop/page.tsx:51-57 | no product matches an inverted price range; with no term and no selection only `low <= price <= high` decides |
| `Shop.Filter` | src/app/shop/page.tsx:51-57 | the shown list is no longer than the catalogue and every product in it passes all four tests |
| `Shop.ToggleRule` | src/app/shop/page.tsx:27-41 | toggling an absent value appends it at the end; toggling a present value removes every occurrence and keeps the rest in order with their multiplicities; only that value's checked state flips |
| `Shop.ToggleKeepsNoDuplicates` | src/app/shop/page.tsx:27-41 | toggling keeps a selection free of duplicates |
| `Shop.ToggleTwiceRestores` | src/app/shop/page.tsx:27-41 | toggling an absent value twice restores the original selection |
| `Shop.RemoveAll` | src/app/shop/page.tsx:30 | `prev.filter(c => c !== value)` is no longer than `prev` and no longer holds `value` |
| `Shop.Toggle` | src/app/shop/page.tsx:27-41 | the toggled value ends up checked exactly when it was unchecked before |
| `Shop.DistinctSpec` | src/app/shop/page.tsx:14-15 | `[...new Set(s)]` holds each value of `s` exactly once, in first-occurrence order |
| `Shop.Distinct` | src/app/shop/page.tsx:14-15 | `[...new Set(s)]` is no longer than `s` and holds only values of `s` |
| `Shop.CategoryColumn` | src/app/shop/page.tsx:14 | `products.map(p => p.category)`: one entry per product, in catalogue order |
| `Shop.BrandColumn` | src/app/shop/page.tsx:15 | `products.map(p => p.brand)`: one entry per product, in catalogue order |
| `Shop.AllCategories` | src/app/shop/page.tsx:14 | every category of the catalogue exactly once, ordered by first occurrence |
| `Shop.AllBrands` | src/app/shop/page.tsx:15 | every brand of the catalogue exactly once, ordered by first occurrence |
| `Shop.MaxPrice` | src/app/shop/page.tsx:16 | `maxPrice` is at least every product's price and equals some product's price (below every price for an empty catalogue) |
| `Shop.InitialCategories` | src/app/shop/page.tsx:20-24 | the initial selection is `[category]` when the query has a non-empty category, else empty; never a duplicate |
| `Shop.ClearedShowsEverything` | src/app/shop/page.tsx:43-58 | after clearing (empty term, range `[0, maxPrice]`, empty selections) every catalogue product is shown, in order |
| `Shop.ShopPage.constructor` | src/app/shop/page.tsx:20-25 | initial state: empty term, range `[0, maxPrice]`, the query's category, no brands; selections duplicate-free |
| `Shop.ShopPage.FilteredProducts` | src/app/shop/page.tsx:50-58 | the shown list is a subsequence of the catalogue and every product in it matches the page's current criteria |
| `Shop.ShopPage.SetSearchTerm` | src/app/shop/page.tsx:78 | only the search term changes |
| `Shop.ShopPage.SetPriceRange` | src/app/shop/page.tsx:90 | only the price range changes |
| `Shop.ShopPage.HandleCategoryChange` | src/app/shop/page.tsx:27-33 | the category selection becomes its toggle; all else unchanged; no duplicates |
| `Shop.ShopPage.HandleBrandChange` | src/app/shop/page.tsx:35-41 | the brand selection becomes its toggle; all else unchanged; no duplicates |
| `Shop.ShopPage.ClearFilters` | src/app/shop/page.tsx:43-48 | the criteria become the cleared ones and the shown list is the whole catalogue |
| `AdminLayout.RedirectTarget` | src/app/admin/layout.tsx:49-53 | a redirect, always to `/admin/login`, is issued iff not loading, no user, and the path is neither `/admin/login` nor `/admin/signup` |
| `AdminLayout.Render` | src/app/admin/layout.tsx:55-66 | login/signup pages always render bare children; a protected path shows the loading placeholder while loading and nothing when not loading and signed out; the chrome appears iff not loading, signed in and not on those pages |
| `AdminLayout.BlankExactlyWhenRedirecting` | src/app/admin/layout.tsx:49-61 | the layout renders nothing exactly when it redirects to the login page; the chrome implies a user |
| `AdminLayout.FindFirst` | src/app/admin/layout.tsx:71 | `find` yields the first item in list order that matches, or none when no item matches |
| `AdminLayout.PageTitleAsWritten` | src/app/admin/layout.tsx:69-73 | `getPageTitle` as written: "Add Product" exactly on paths starting with `/admin/products/add` |
| `AdminLayout.PageTitle` | src/app/admin/layout.tsx:69-73 | corrected `getPageTitle`: "Add Product" exactly on the add-product paths, otherwise the label of one of the four items |
| `AdminLayout.IsActive` | src/app/admin/layout.tsx:100 | a highlighted item's href is always a prefix of the path |
| `AdminLayout.AsWrittenTitleShadowed` | src/app/admin/layout.tsx:31-73 | because `/admin` is first, `/admin` and every path below `/admin/` except the add-product page is titled "Dashboard" |
| `AdminLayout.AsWrittenTitleOnlyTwoValues` | src/app/admin/layout.tsx:69-73 | as written the title is only ever "Add Product" or "Dashboard" |
| `AdminLayout.AsWrittenTitleDisagreesWithSidebar` | src/app/admin/layout.tsx:69-100 | on `/admin/products` the header says "Dashboard" while the sidebar highlights "Products" and not "Dashboard" |
| `AdminLayout.AddProductTitle` | src/app/admin/layout.tsx:70 | any path starting with `/admin/products/add` is titled "Add Product" |
| `AdminLayout.DashboardActiveOnlyOnItsPage` | src/app/admin/layout.tsx:100 | the dashboard item is highlighted iff the path is exactly `/admin` |
| `AdminLayout.ActiveWithoutBoundary` | src/app/admin/layout.tsx:100 | no `'/'` boundary: `/admin/productsarchive` highlights "Products" though it fails the title test |
| `AdminLayout.AtMostOneActive` | src/app/admin/layout.tsx:98-100 | no two sidebar items are highlighted on the same path |
| `AdminLayout.PageTitleSection` | src/app/admin/layout.tsx:69-73 | corrected title: a path that is a section's page or lies below it (with `/admin` matching only itself) is titled with that section's label |
| `AdminLayout.PageTitleMatchesSidebar` | src/app/admin/layout.tsx:69-100 | corrected title: it is "Dashboard" or the label of a highlighted section item |
| `AdminLayout.HighlightWithoutTitle` | src/app/admin/layout.tsx:69-100 | the converse fails: `/admin/productsarchive` highlights "Products" while even the corrected title is "Dashboard" |
| `AdminLayout.PageTitleOfSections` | src/app/admin/layout.tsx:31-73 | corrected title of `/admin`, `/admin/products`, `/admin/orders`, `/admin/customers` and `/admin/products/add` |
| `AddProduct.ProductIssues` | src/app/admin/products/add/page.tsx:36-47 | a field is reported iff its constraint fails |
| `AddProduct.ProductAccepted` | src/app/admin/products/add/page.tsx:36-47 | accepted iff name and description are non-empty, price >= 0, category one of the six, brand one of the four, stock >= 0 and rating in [1, 5] |
| `AddProduct.DefaultProductFormRejected` | src/app/admin/products/add/page.tsx:55-65 | the numeric defaults (0, 0, 4) satisfy their rules and both flags are off, yet the default form is rejected on exactly name, description, category and brand |
| `AddProduct.NewProductData` | src/app/admin/products/add/page.tsx:84-96 | the record carries every validated field unchanged, `imageUrl` is the preview or `''`, `imageIds` is empty |
| `AddProduct.Submit` | src/app/admin/products/add/page.tsx:68-96 | an invalid form reports its issues; a valid one without a store writes nothing; otherwise the record is written |
| `AddProduct.WrittenRecordValid` | src/app/admin/products/add/page.tsx:69-96 | no store means no write; a written record satisfies the schema again |
| `Checkout.ParsePaymentMethod` | src/app/checkout/page.tsx:31-33 | accepted iff the value is exactly `card`, `mpesa` or `paypal`; a missing method fails |
| `Checkout.PaymentMethodRoundTrip` | src/app/checkout/page.tsx:104-122 | each radio button's value parses back to its own method |
| `Checkout.CheckoutIssues` | src/app/checkout/page.tsx:24-34 | a field is reported iff its constraint fails |
| `Checkout.CheckoutAccepted` | src/app/checkout/page.tsx:24-34 | accepted iff name >= 2, phone >= 10, address >= 5, city >= 2, zip >= 4 characters, the e-mail passes and the method is one of the three |
| `Checkout.DefaultCheckoutFormRejected` | src/app/checkout/page.tsx:46-56 | the default form fails every length rule and the payment method |
| `Checkout.EmptyCartRedirect` | src/app/checkout/page.tsx:40-44 | a redirect, always to `/shop`, happens iff the cart is empty |
| `Checkout.Render` | src/app/checkout/page.tsx:64-145 | nothing is rendered iff the cart is empty; otherwise the summary lines and the cart's `cartTotal` |
| `Checkout.SummaryLines` | src/app/checkout/page.tsx:136-141 | one summary line per cart line, in order, with amount price × quantity |
| `Checkout.LineOf` | src/app/checkout/page.tsx:138-139 | a summary line carries the product's name and the quantity, with amount price × quantity (not negative when the quantity is not negative) |
| `Checkout.SummaryAddsUp` | src/app/checkout/page.tsx:136-145 | the line amounts add up to the sum of price × quantity over the cart |
| `Checkout.CheckoutSession.constructor` | src/app/checkout/page.tsx:38 | the page starts from the cart's lines and total, nothing pushed |
| `Checkout.CheckoutSession.ClearCart` | src/app/checkout/page.tsx:60 | the cart becomes empty with total 0; the route history is unchanged |
| `Checkout.CheckoutSession.CartChanged` | src/app/checkout/page.tsx:40-44 | pushes `/shop` iff the cart is empty; the cart is unchanged |
| `Checkout.CheckoutSession.HandleSubmit` | src/app/checkout/page.tsx:58-62 | a valid form empties the cart and pushes the confirmation route with the pre-clear total; an invalid one changes nothing |
| `Checkout.CheckoutSession.SubmitThenRerender` | src/app/checkout/page.tsx:40-62 | after a valid submit the cart is empty with total 0 and the emptied cart fires the effect, so `/shop` is pushed after the confirmation route; after an invalid one the cart, total and route history are unchanged |
| `Contact.ContactIssues` | src/app/contact/page.tsx:20-25 | a field among the four is reported iff its constraint fails |
| `Contact.ContactAccepted` | src/app/contact/page.tsx:20-25 | accepted iff name >= 2, subject >= 3, message >= 10 characters and the e-mail passes; nothing else is inspected |
| `Contact.DefaultContactFormRejected` | src/app/contact/page.tsx:30-35 | the all-empty defaults fail name, subject and message |
| `Contact.ContactPage.constructor` | src/app/contact/page.tsx:28-36 | the form starts at its empty defaults |
| `Contact.ContactPage.Edit` | src/app/contact/page.tsx:62-74 | typing replaces the form's values |
| `Contact.ContactPage.HandleSubmit` | src/app/contact/page.tsx:38-41 | a valid message resets every field to its empty default; an invalid one leaves the form as it was |

## Findings

| source | as written | input that shows it | evidently intended | confidence | as-written member | corrected member |
|---|---|---|---|---|---|---|
| src/app/admin/layout.tsx:71 | `find` returns the first item whose href equals the path or is a prefix followed by `'/'`, and `/admin` comes first | path `/admin/products`: title "Dashboard" (this holds for every admin page except the add-product page) | the section's own label ("Products"), matching the highlighted sidebar item; the sidebar's own rule (line 100) already exempts `/admin` from prefix matching | medium, not executed | `AdminLayout.AsWrittenTitleDisagreesWithSidebar` | `AdminLayout.PageTitleSection` |

## Left out

- The cart store (`src/context/cart-context`) is not part of this model. `CheckoutSession` holds only what the page uses, `cartItems` and `cartTotal`. `ClearCart` leaves no lines and a total of 0.
- The catalogue module (`src/lib/products`) is not part of this model; the shop takes the catalogue as a parameter.
- Firestore writes and Firebase auth are foreign I/O: `addDocumentNonBlocking` and its try/catch, `signOut`, `useUser`. The store's presence and the auth state are boolean inputs. The record handed to the store is the result.
- The toast messages, `console.log`, and the navigation to `/admin/products` after a product is added.
- The validation library's e-mail regular expression is not visible; it is the `isEmail` parameter.
- zod `.min(n)` counts UTF-16 code units, while the model counts Dafny characters.
- `z.coerce.number()` coercing strings, and floating-point prices: numbers are integers here. So `.int()` on stock and rating holds by type and is not checked separately.
- `toFixed(2)` display formatting, and the text of `/order-confirmation?total=...`: the route carries the number.
- Unicode `toLowerCase`: only ASCII letters are folded.
- The slider's `step={10}` and its bounds are not enforced; `SetPriceRange` accepts any pair, and so does the page's state.
- The `FileReader` image preview is an input (`preview`), and JSX rendering is reduced to the `View`/`CheckoutView` outcomes.
- The header title is computed separately from `AdminLayout.Render`, whose `WithChrome` outcome carries no title.
- Effect and re-render scheduling is outside the model: `SubmitThenRerender` states the order in which the two pushes are issued, not which route the browser finally shows. `CheckoutSession` starts in its first-render state, before the effect runs on mount, so for an empty cart `/shop` is pushed only by the first `CartChanged` call.

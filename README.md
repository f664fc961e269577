# All In International website: session, catalog-editor and widget state, in Dafny

This project models the stateful logic of the All In International marketing site and its
admin panel. There are seven pieces:

- **Products and services admin screens.** Each is a modal form with a set of handlers.
  Demo mode runs a complete in-memory create/edit. When adding a product, an image is
  required. An edit keeps the product's id and its old image unless a new file is attached.
  In live mode the store's answer is a parameter, and the model reports which write
  (`updateDoc` on an id, or `addDoc`) the submit sends, and with which fields.
- **FAQ accordion.** A list of open question ids and a toggle.
- **Testimonial carousel.** Modular next/prev/go-to steps over four testimonials, plus the
  five-second timer step.
- **Portfolio page.** A category filter over a constant list of eight works, and a
  single-item lightbox.
- **Logo.** A cursor over five candidate image paths that moves forward on each load error.
- **Authentication context.** The signed-in user, the admin flag and the loading flag.
  Demo mode sets them directly. The live listener sets them from the identity service, and
  the admin rule is the email suffix `@allin-production.com`.

Each component whose state its handlers set is a `class`. Its fields are the component's
state. Its methods are the handlers, and each method's `ensures` gives the whole new state. The list
transforms and the index arithmetic are pure functions. Lemmas state the properties that
relate several calls: round trips, invariants, and "nothing else changes".

Modules: `Common` (optional values, promise results, the JavaScript string and array helpers
used: `||`, `endsWith`, `split(c)[0]`, `${n}`, `filter`), `Catalog` (what the two admin screens
share: the `demo-` id and the replace-by-id `map`), `Products`, `Services`, `Faq`,
`Testimonials`, `PortfolioPage`, `Branding` (the logo) and `Auth`.

Modelling choices:
- Things the source gets from its surroundings are parameters:
  - the clock reading `Date.now()` is `now`;
  - the browser's object URL for a picked file is `previewUrl`;
  - the download URL of an upload is `uploadedUrl`;
  - whether a live upload-and-write succeeds is `storeOk`;
  - what the identity service resolves or rejects with is `service`.
- The admin screens' demo flag (`isDemoMode`, imported from `src/lib/firebase`, which is not
  part of this model) is a constructor argument.
- The form's `required` inputs are preconditions of `Submit`: name, description and price for
  products; title and description for services. The browser blocks the submit event while
  any of them is empty, so the handler never sees an empty value.
- The auth context's demo flag is `!import.meta.env.VITE_FIREBASE_API_KEY`. So demo mode holds
  when the key is absent *or empty* (falsy), not only when it is absent; the model follows
  the code.
- The demo auth calls finish after a 500 ms `setTimeout`. The model treats them as immediate.

Behaviours of the code that the model keeps as written:
- `openModal(product)` keeps a file attached earlier. It replaces the preview only when the
  product has a truthy image.
- Demo `signup` sets the user but leaves `isAdmin` as it was. An admin flag from an earlier
  demo login therefore survives a sign-up with a non-admin email.
- A live edit without a new file writes `image: ''` when the product had no image. It writes
  the old URL when there was one. The demo edit stores exactly the old value either way
  (`EditWithoutFileKeepsImage`).
- A demo edit of a product or service whose id is no longer in the list changes nothing,
  and the screen still reports success (`ReplaceMissingIsIdentity`).
- The admin screens' snapshot-error callback only clears `loading`. No fallback list is
  substituted on those screens.

## Model

| member | source | states |
|---|---|---|
| `Common.Truthy` | src/contexts/AuthContext.tsx:210 | an optional string is falsy exactly when it is absent or `''` (a definition; used by `AdminOf`, `PreviousImage` and `IsDemoMode`, whose contracts rest on it) |
| `Common.EndsWith` | src/contexts/AuthContext.tsx:115 | `endsWith(suffix)` holds only when the string is at least as long as `suffix`; it always holds for `''` and for the string itself |
| `Common.Or` | src/pages/admin/ProductsAdmin.tsx:112 | the JavaScript or-default on strings: the first when non-empty, else the second (a definition; `OpenModal`'s icon default rests on it) |
| `Common.EndsWithIsConcatenation` | src/contexts/AuthContext.tsx:115 | `endsWith(suffix)` holds exactly when the string is some string followed by `suffix` |
| `Common.PrefixBefore` | src/contexts/AuthContext.tsx:59 | `split(c)[0]` is a prefix of the string with no `c` in it, followed in the string by `c` or by nothing |
| `Common.Decimal` | src/pages/admin/ProductsAdmin.tsx:169 | `${n}` is a non-empty string of decimal digits with no leading zero, one digit exactly for `n < 10` |
| `Common.DecimalInjective` | src/pages/admin/ProductsAdmin.tsx:169 | distinct numbers render as distinct strings |
| `Common.Filter` | src/components/sections/FAQSection.tsx:46 | `filter(keep)` keeps only passing elements with their full multiplicity, in order (a subsequence) |
| `Common.FilterKeepsAll` | src/components/sections/FAQSection.tsx:46 | filtering with a test every element passes returns the list itself |
| `Common.FilterAppend` | src/components/sections/FAQSection.tsx:46-47 | filtering distributes over concatenation |
| `Catalog.DemoId` | src/pages/admin/ProductsAdmin.tsx:169 | a demo id starts with `demo-` and has more after it |
| `Catalog.DemoIdInjective` | src/pages/admin/ServicesAdmin.tsx:120 | demo items created at different clock readings get different ids |
| `Catalog.ReplaceWhere` | src/pages/admin/ProductsAdmin.tsx:158-165 | the replace-by-id `map`: same length, matching elements become the update, all others stay in place |
| `Catalog.ReplaceMissingIsIdentity` | src/pages/admin/ServicesAdmin.tsx:111-116 | editing an id no element carries leaves the list unchanged |
| `Catalog.ReplaceKeepsKeys` | src/pages/admin/ServicesAdmin.tsx:111-116 | when the update keeps the edited id (the spread), every position keeps its id |
| `Products.PreviousImage` | src/pages/admin/ProductsAdmin.tsx:140 | the default image of a submit is the edited product's image, or `''` without a product or image |
| `Products.ResolveImageUrl` | src/pages/admin/ProductsAdmin.tsx:140-153 | the resolved URL is the old image, the preview or the uploaded URL: with no file the product's old image (`''` if none), with a file the preview in demo mode and the uploaded URL in live mode |
| `Products.EditedProduct` | src/pages/admin/ProductsAdmin.tsx:158-165 | the demo edit is the current product with the form's name, description, price and icon, its own id, and the new URL as image, or its old image when the URL is `''` (the object spread; partners `EditWithoutFileKeepsImage`, `DemoFileImageIsPreview`, `DemoEditTouchesOnlyMatch`) |
| `Products.NewDemoProduct` | src/pages/admin/ProductsAdmin.tsx:168-175 | a demo-created product has a `demo-` id, the form's fields and the resolved URL as image |
| `Products.DemoProductIdsDiffer` | src/pages/admin/ProductsAdmin.tsx:169 | products created in demo mode at different clock readings have different ids |
| `Products.EditWithoutFileKeepsImage` | src/pages/admin/ProductsAdmin.tsx:140-164 | an edit with no new file stores exactly the product's previous image and keeps its id |
| `Products.DemoFileImageIsPreview` | src/pages/admin/ProductsAdmin.tsx:143-146 | in demo mode with a new file, created and edited products store the preview URL |
| `Products.DemoEditTouchesOnlyMatch` | src/pages/admin/ProductsAdmin.tsx:157-165 | the demo edit keeps length and every id, changes nothing whose id differs, and gives the form's fields to the match |
| `Products.DemoCreateKeepsDistinctIds` | src/pages/admin/ProductsAdmin.tsx:167-176 | a demo create keeps the products' ids distinct when no product already has the new `demo-` id |
| `Products.DemoEditKeepsDistinctIds` | src/pages/admin/ProductsAdmin.tsx:157-165 | on a list with distinct ids the demo edit keeps them distinct and changes at most one product |
| `Products.SameClockDemoCreatesCollide` | src/pages/admin/ProductsAdmin.tsx:169 | two demo creates at the same clock reading give two products with the same id |
| `Products.ProductsAdmin.constructor` | src/pages/admin/ProductsAdmin.tsx:32-45 | initial state: no products, loading, modal closed, form as after a reset |
| `Products.ProductsAdmin.OnSnapshot` | src/pages/admin/ProductsAdmin.tsx:50-56 | a snapshot replaces the list and ends loading; the form is untouched |
| `Products.ProductsAdmin.OnSnapshotError` | src/pages/admin/ProductsAdmin.tsx:57-59 | a listener error only ends loading |
| `Products.ProductsAdmin.OnFetchSettled` | src/pages/admin/ProductsAdmin.tsx:64-83 | the re-read after a live save replaces the list with what was read (keeps it when the read rejects) and ends loading; the form is untouched |
| `Products.ProductsAdmin.SetName` | src/pages/admin/ProductsAdmin.tsx:362 | the input sets the name and nothing else |
| `Products.ProductsAdmin.SetDescription` | src/pages/admin/ProductsAdmin.tsx:373 | the input sets the description and nothing else |
| `Products.ProductsAdmin.SetPrice` | src/pages/admin/ProductsAdmin.tsx:385 | the input sets the price and nothing else |
| `Products.ProductsAdmin.HandleImageChange` | src/pages/admin/ProductsAdmin.tsx:86-92 | the first picked file, if any, becomes the attached file with its preview URL; no file changes nothing |
| `Products.ProductsAdmin.ClearImage` | src/pages/admin/ProductsAdmin.tsx:403-406 | the remove button drops the file and empties the preview |
| `Products.ProductsAdmin.ResetForm` | src/pages/admin/ProductsAdmin.tsx:94-103 | name, description, price `''`, icon `'Package'`, no file, preview `''`, no current product, not editing |
| `Products.ProductsAdmin.OpenModal` | src/pages/admin/ProductsAdmin.tsx:105-120 | opens the modal; with a product: editing, its fields copied, icon `'Package'` when empty, preview replaced only for a truthy image; without: reset |
| `Products.ProductsAdmin.CloseModal` | src/pages/admin/ProductsAdmin.tsx:122-125 | closes the modal and resets the form; the list is unchanged |
| `Products.ProductsAdmin.Submit` | src/pages/admin/ProductsAdmin.tsx:127-221 | adding without a file is rejected with nothing changed; demo edit replaces by id, demo create prepends one `demo-` product with a non-empty image; a demo save keeps ids distinct when the create's id is fresh; live success sends the update or add with the resolved image and starts the re-read, so loading is on; success closes and resets, failure leaves everything, modal open |
| `Products.DemoAddThenEdit` | src/pages/admin/ProductsAdmin.tsx:94-178 | add "Test Mug" with a file, then an edit of its price without a file: one product, `demo-` id, new price, original image |
| `Services.IsIconOption` | src/pages/admin/ServicesAdmin.tsx:190-200 | the icons the picker offers are exactly its nine values, `'Palette'` to `'Crown'` |
| `Products.LiveEditThenReread` | src/pages/admin/ProductsAdmin.tsx:140-212 | a live edit without a file sends an update of the product's id with its old image (`''` if none) and turns loading on; the settled re-read then sets the list and turns loading off |
| `Services.DefaultIconIsOption` | src/pages/admin/ServicesAdmin.tsx:190-200 | the nine picker values are distinct and include the default `'Wrench'` |
| `Services.EditedService` | src/pages/admin/ServicesAdmin.tsx:111-116 | the demo edit is the current service with the form's title, description and icon, keeping its id (the object spread; partners `DemoEditTouchesOnlyMatch`, `DemoEditKeepsDistinctIds`) |
| `Services.NewDemoService` | src/pages/admin/ServicesAdmin.tsx:119-124 | a demo-created service has a `demo-` id and the form's fields |
| `Services.DemoEditTouchesOnlyMatch` | src/pages/admin/ServicesAdmin.tsx:110-117 | the demo edit keeps length and ids, changes nothing else, and the match becomes the form's fields under its own id |
| `Services.DemoCreateKeepsDistinctIds` | src/pages/admin/ServicesAdmin.tsx:118-125 | a demo create keeps the services' ids distinct when no service already has the new `demo-` id |
| `Services.DemoEditKeepsDistinctIds` | src/pages/admin/ServicesAdmin.tsx:110-117 | on a list with distinct ids the demo edit keeps them distinct and changes at most one service |
| `Services.ServicesAdmin.constructor` | src/pages/admin/ServicesAdmin.tsx:28-38 | initial state: no services, loading, modal closed, form as after a reset |
| `Services.ServicesAdmin.OnSnapshot` | src/pages/admin/ServicesAdmin.tsx:43-49 | a snapshot replaces the list and ends loading |
| `Services.ServicesAdmin.OnSnapshotError` | src/pages/admin/ServicesAdmin.tsx:50-52 | a listener error only ends loading |
| `Services.ServicesAdmin.OnFetchSettled` | src/pages/admin/ServicesAdmin.tsx:57-76 | the re-read after a live save replaces the list with what was read (keeps it when the read rejects) and ends loading |
| `Services.ServicesAdmin.SetTitle` | src/pages/admin/ServicesAdmin.tsx:303 | the input sets the title and nothing else |
| `Services.ServicesAdmin.SetDescription` | src/pages/admin/ServicesAdmin.tsx:314 | the input sets the description and nothing else |
| `Services.ServicesAdmin.SelectIcon` | src/pages/admin/ServicesAdmin.tsx:324-328 | a picker click sets the icon to that option's value, one of the nine |
| `Services.ServicesAdmin.ResetForm` | src/pages/admin/ServicesAdmin.tsx:79-85 | title and description `''`, icon `'Wrench'`, no current service, not editing |
| `Services.ServicesAdmin.OpenModal` | src/pages/admin/ServicesAdmin.tsx:87-98 | opens the modal; with a service: editing, fields copied, icon `'Wrench'` when empty; without: reset |
| `Services.ServicesAdmin.CloseModal` | src/pages/admin/ServicesAdmin.tsx:100-103 | closes the modal and resets the form |
| `Services.ServicesAdmin.Submit` | src/pages/admin/ServicesAdmin.tsx:105-166 | no image check; demo edit replaces by id, demo create prepends one `demo-` service; a demo save keeps ids distinct when the create's id is fresh; live success sends the update or add and starts the re-read, so loading is on; success closes and resets, failure changes nothing |
| `Faq.Toggle` | src/components/sections/FAQSection.tsx:43-49 | an absent id is appended at the end; a present id loses every occurrence, others keep count and order; membership of the id flips and of no other id changes |
| `Faq.ToggleKeepsNoDuplicates` | src/components/sections/FAQSection.tsx:43-49 | toggling keeps a duplicate-free list duplicate-free |
| `Faq.ToggleTwiceRestoresMembership` | src/components/sections/FAQSection.tsx:43-49 | toggling an id twice restores its membership |
| `Faq.ToggleTwiceFromClosed` | src/components/sections/FAQSection.tsx:43-49 | opening then closing an item gives back the identical list |
| `Faq.ToggleAllNoDuplicates` | src/components/sections/FAQSection.tsx:41-49 | any run of toggles from `[]` (or any duplicate-free list) never creates a duplicate |
| `Faq.ToggleAll` | src/components/sections/FAQSection.tsx:43-49 | a run of toggles leaves the membership of every id it never toggles as it was |
| `Faq.FaqSection.constructor` | src/components/sections/FAQSection.tsx:41 | the open list starts empty |
| `Faq.FaqSection.ToggleItem` | src/components/sections/FAQSection.tsx:43-49 | the new list is the toggle of the old; it stays duplicate-free and within the six question ids; the item's shown state flips and no other item's changes |
| `Faq.FaqSection.IsOpen` | src/components/sections/FAQSection.tsx:75-84 | an item is shown open exactly when its id is in the open list; only question ids can be open |
| `Testimonials.Next` | src/components/sections/TestimonialsSection.tsx:53-55 | the next index stays in range, wrapping from the last to the first |
| `Testimonials.Prev` | src/components/sections/TestimonialsSection.tsx:57-59 | the previous index stays in range, wrapping from the first to the last |
| `Testimonials.Tick` | src/components/sections/TestimonialsSection.tsx:46-48 | the timer's step stays in range |
| `Testimonials.TickIsNext` | src/components/sections/TestimonialsSection.tsx:47 | the timer's step equals the "next" step |
| `Testimonials.PrevUndoesNext` | src/components/sections/TestimonialsSection.tsx:53-59 | prev after next and next after prev return to the start |
| `Testimonials.NextTimes` | src/components/sections/TestimonialsSection.tsx:54 | repeated "next" stays in range |
| `Testimonials.NextTimesIsModular` | src/components/sections/TestimonialsSection.tsx:54 | `n` presses of "next" move `n` places round the list |
| `Testimonials.FullRoundIsIdentity` | src/components/sections/TestimonialsSection.tsx:7-40 | `testimonials.length` presses of "next" return to the start |
| `Testimonials.TestimonialsSection.constructor` | src/components/sections/TestimonialsSection.tsx:43 | the index starts at 0 |
| `Testimonials.TestimonialsSection.Current` | src/components/sections/TestimonialsSection.tsx:95-109 | the testimonial on show is the one at the index, always one of the four |
| `Testimonials.TestimonialsSection.NextTestimonial` | src/components/sections/TestimonialsSection.tsx:53-55 | the index becomes `Next` of the old one and stays in range |
| `Testimonials.TestimonialsSection.PrevTestimonial` | src/components/sections/TestimonialsSection.tsx:57-59 | the index becomes `Prev` of the old one and stays in range |
| `Testimonials.TestimonialsSection.IntervalTick` | src/components/sections/TestimonialsSection.tsx:45-51 | one timer firing applies the timer step and stays in range |
| `Testimonials.TestimonialsSection.GoTo` | src/components/sections/TestimonialsSection.tsx:127-130 | a dot click sets the index to that dot's, in range, and shows that dot's testimonial |
| `PortfolioPage.FilterByCategory` | src/pages/Portfolio.tsx:87-89 | `'All'` returns the list unchanged; any other category returns exactly its items with full multiplicity, in order |
| `PortfolioPage.FilterMembership` | src/pages/Portfolio.tsx:89 | for a category other than `'All'`, an item is shown exactly when it is listed and has that category |
| `PortfolioPage.PortfolioItemsWellFormed` | src/pages/Portfolio.tsx:11-81 | item ids are distinct, every item's category is offered, and `'All'` is offered but is no item's category |
| `PortfolioPage.Portfolio.constructor` | src/pages/Portfolio.tsx:84-85 | the selection starts at `'All'` with the lightbox closed |
| `PortfolioPage.Portfolio.FilteredItems` | src/pages/Portfolio.tsx:87-89 | every shown item is one of the portfolio items |
| `PortfolioPage.Portfolio.SelectCategory` | src/pages/Portfolio.tsx:136 | a category click sets the selection and leaves the lightbox |
| `PortfolioPage.Portfolio.OpenLightbox` | src/pages/Portfolio.tsx:91-93 | clicking a shown item selects it for the lightbox |
| `PortfolioPage.Portfolio.CloseLightbox` | src/pages/Portfolio.tsx:95-97 | closing clears the lightbox selection |
| `Branding.AfterError` | src/components/Logo.tsx:12-18 | one error moves the cursor forward by one only if that stays in range, otherwise leaves it |
| `Branding.AfterErrors` | src/components/Logo.tsx:13-16 | after any number of errors the cursor is in range and never behind where it started |
| `Branding.ErrorsFrom` | src/components/Logo.tsx:12-18 | `k` errors from any candidate move the cursor `k` places, stopping at the last candidate |
| `Branding.Logo.constructor` | src/components/Logo.tsx:8-10 | the cursor starts at 0 showing the first candidate |
| `Branding.Logo.HandleError` | src/components/Logo.tsx:12-18 | the cursor takes the single-error step, never decreases, and `src` is always the candidate it points at |
| `Auth.IsDemoMode` | src/contexts/AuthContext.tsx:17 | demo mode exactly when the API key is absent or `''` |
| `Auth.IsAdminEmail` | src/contexts/AuthContext.tsx:115 | an email is an admin's exactly when it is some local part followed by `@allin-production.com`; such an email contains `@` |
| `Auth.DisplayNameOf` | src/contexts/AuthContext.tsx:59 | a demo display name is the email up to its first `@` (the whole email when it has none) |
| `Auth.DemoUser` | src/contexts/AuthContext.tsx:55-70 | a demo mock user carries the given email, is verified, and has the email's prefix as display name |
| `Auth.DemoGoogleUser` | src/contexts/AuthContext.tsx:157-172 | the Google mock user has email `demo.user@gmail.com` and provider `google.com` |
| `Auth.AdminOf` | src/contexts/AuthContext.tsx:209-214 | the listener's admin flag holds exactly for a present user with an email ending in `@allin-production.com` |
| `Auth.DisplayNameExample` | src/contexts/AuthContext.tsx:97 | sample display names: `jane@allin-production.com` gives `jane`, `a@b@c` gives `a`, `nobody` gives `nobody` |
| `Auth.PrefixBeforeOfConcat` | src/contexts/AuthContext.tsx:97 | a prefix with no `@` followed by nothing or by `@...` is its own display name |
| `Auth.AdminRulesAgree` | src/contexts/AuthContext.tsx:115 | the listener rule and the demo login rule agree on demo users; the Google demo user is never admin |
| `Auth.AuthProvider.constructor` | src/contexts/AuthContext.tsx:17 | demo mode exactly when the API key is absent or empty; no user, loading, not admin |
| `Auth.AuthProvider.Mount` | src/contexts/AuthContext.tsx:197-204 | demo mode stops loading at once; live mode waits for the listener |
| `Auth.AuthProvider.OnAuthStateChanged` | src/contexts/AuthContext.tsx:206-217 | the listener sets the user, the suffix-rule admin flag (false without user or email), and ends loading |
| `Auth.AuthProvider.Signup` | src/contexts/AuthContext.tsx:51-87 | demo sign-up signs in the mock user and leaves the admin flag; live resolves as the service does |
| `Auth.AuthProvider.Login` | src/contexts/AuthContext.tsx:89-125 | demo log-in signs in the mock user with admin exactly for the suffix; live resolves as the service does |
| `Auth.AuthProvider.Logout` | src/contexts/AuthContext.tsx:127-140 | demo log-out clears the user and the admin flag |
| `Auth.AuthProvider.GoogleSignIn` | src/contexts/AuthContext.tsx:153-188 | demo Google sign-in signs in the Google mock user, not admin |
| `Auth.AuthProvider.VerifyEmail` | src/contexts/AuthContext.tsx:146-151 | rejected with "No user logged in" when nobody is signed in, else the service's answer |
| `Auth.AuthProvider.UpdateUserProfile` | src/contexts/AuthContext.tsx:190-195 | rejected with "No user logged in" when nobody is signed in, else the service's answer |
| `Auth.DemoSession` | src/contexts/AuthContext.tsx:89-151 | demo login then logout: admin flag per the suffix while in, then off, and verification rejected |

## Left out

- Firestore and Storage calls are not modelled: `onSnapshot` subscription and teardown,
  `getDocs`, `addDoc`, `updateDoc`, `uploadBytes`, `getDownloadURL`. They are foreign I/O. A
  live submit reports the write it sends, and the store's success or failure is the parameter
  `storeOk`. The re-read `fetchProducts`/`fetchServices` is split in two: its start (loading on)
  is part of `Submit`, and its end is `OnFetchSettled`, which receives what `getDocs` read.
  A snapshot or a second save arriving while a re-read is pending is an ordinary call in
  between; the race between them is not represented. Upload and write are not told apart,
  so the orphaned upload after a failed write is not represented.
- `handleDelete` (products and services) is not modelled. It has no demo branch and is only
  `window.confirm` followed by `deleteDoc`/`deleteObject`. For the same reason, deleting an
  item twice is not modelled.
- The storage path `products/${Date.now()}_${file.name}` is not modelled: only the resulting
  URL (`uploadedUrl`) matters to the state.
- Toasts, `console` output and `window.open` are UI side effects and are not modelled.
- `Date.now()` and `URL.createObjectURL` are not modelled; their values come in as
  parameters (`now`, `previewUrl`).
- `setTimeout` delays (demo auth) and `setInterval` scheduling (carousel) are not modelled.
  Calls complete immediately and a timer firing is one `IntervalTick`, so interleavings
  during a delay are not represented.
- `resetPassword` is not modelled: it is a bare pass-through to the identity service.
- Live sign-up's `sendEmailVerification` and the user-object update done by `updateProfile`
  are not modelled: they happen inside the identity service.
- The question and answer texts of the FAQ and the quote texts of the testimonials are not
  modelled: only ids, names and counts affect the state.
- Rendering, animation, routing and the static pages are not modelled. This covers
  `Navigation`, `AdminLayout`, `App` and the other sections; they hold no state logic.
- `Products.ProductsAdmin.Submit`: the ids of the demo list stay distinct only while each
  create's clock reading gives a fresh `demo-` id. Two creates in the same millisecond collide
  (`SameClockDemoCreatesCollide`), and an edit then rewrites every product with that id.
  Distinct ids are therefore a conditional promise (`DemoCreateKeepsDistinctIds`), not an
  invariant of the class.
- `Services.ServicesAdmin.Submit`: the same holds for demo services; distinct ids are kept
  only when each create's id is fresh (`DemoCreateKeepsDistinctIds`).
- `Testimonials.Tick`: its own contract states only the range bound. Its equality with `Next`
  is the separate lemma `TickIsNext`.

# Gift-box storefront: a verified model of its client-side state

This project models the client-side logic of a gift-box storefront written
in TypeScript/React. It covers:

- the **box configuration store**: one live `BoxConfiguration`, the item
  catalog and UI flags, with the actions that replace them. Every action
  that changes the items re-derives `totalPrice` with the same left fold of
  item prices;
- the shared **types** and the `BOX_SIZES` surcharge table;
- the **box-builder page**: category filter, checkout rule, count and
  surcharge captions, the inline size tables, and the size and colour
  buttons, which all go through the store's `setBoxConfig`;
- the **admin dashboard**: access gating, and the editable item list with
  its edit, delete, save and cancel handlers;
- the **onboarding tour**: a five-step counter with Next, Back and Skip;
- the **toast list**: append and remove-by-id, the auto-removal delay, and
  the style and icon of each toast kind;
- the **reset-password page**: the ordered checks before the password
  update, and which of its three screens renders;
- the **3D box parameters**: dimensions per size, which bow each style
  draws and at what height, and which ribbons are drawn.

Prices and scene dimensions are exact `real`s. The claims are about which
fold and which lookup is computed, not about floating-point rounding.

Stateful code is modelled as classes whose methods have `modifies` clauses:
the store, the admin dashboard, the tour, the toast provider and the
reset-password page. Each class is specified by pure functions (`AddItem`,
`RemoveItem`, `ApplyPatch`, `SavedItems`, `WithoutToast`, `CheckPasswords`,
...), and the lemmas are stated about those functions. Short client methods
(`BuildPage.BuildSession`, `OnboardingTour.WalkTour`,
`AdminPage.AddNewItemThroughPage`, `ResetPassword.MismatchReportedFirst`)
run the classes through the scenarios the pages allow and assert the
outcome.

Where the design description and the code disagree, the model follows the
code:

- `bowStyle` is not declared in the `BoxConfiguration` interface
  (src/types/index.ts:15-24), but the store's initial value sets it
  (src/store/boxStore.ts:35). The model keeps it as a string field. It is
  not part of `Partial<BoxConfiguration>`, so `setBoxConfig` never changes it.
- Removing an id that is not in the box does not leave the configuration
  untouched: `totalPrice` is always re-derived from the items. The result is
  the old configuration only when the old total was already consistent
  (`Store.RemoveAbsentIsNoOp`). `setBoxConfig({totalPrice})` without `items`
  can make it inconsistent (`Store.TotalOnlyPatchBreaksInvariant`).
- Removal drops every item with the id, not one occurrence.
- The size surcharge is never added to `totalPrice`.

Files: `wrappers.dfy` (Option), `seqs.dfy` (JavaScript `filter` and its
lemmas), `types.dfy`, `store.dfy`, `build_page.dfy`, `admin_page.dfy`,
`onboarding.dfy`, `toast.dfy`, `reset_password.dfy`, `gift_box_3d.dfy`.

## Model

| member | source | states |
|---|---|---|
| `Types.ParseSize` | src/types/index.ts:20 | a string is accepted as a box size only when it is the key of that size |
| `Types.SizeKeysRoundTrip` | src/types/index.ts:20 | exactly the four keys small, medium, large and extra-large are sizes, and each names its own size |
| `Types.BoxSizeInfo` | src/types/index.ts:26-35 | every size has a surcharge of at least 0, and the surcharge is 0 exactly for small |
| `Types.SurchargeIncreases` | src/types/index.ts:26-35 | surcharges strictly increase from small to extra-large |
| `Types.StatusKey` | src/types/index.ts:49 | an order status is one of pending, processing, shipped, delivered |
| `Types.StatusKeysDistinct` | src/types/index.ts:49 | different statuses have different strings |
| `Store.FoldFrom` | src/store/boxStore.ts:67-70 | the price `reduce` started at any value is that value plus the total, so it is an ordinary sum |
| `Store.SumAppend` | src/store/boxStore.ts:66-70 | the total of a concatenation is the sum of the two totals |
| `Store.SumSingle` | src/store/boxStore.ts:67-70 | a one-item list totals that item's price |
| `Store.WithoutId` | src/store/boxStore.ts:83-85 | the filtered list has no item with the id, keeps every item with another id, and is a subsequence of the original (order kept) |
| `Store.WithId` | src/store/boxStore.ts:83-85 | the items the filter drops all carry the id |
| `Store.WithoutIdCount` | src/store/boxStore.ts:83-85 | every occurrence of an item with the id is removed; every other item keeps all its occurrences |
| `Store.WithoutAbsentId` | src/store/boxStore.ts:83-85 | filtering out an id no item carries returns the list unchanged |
| `Store.WithoutIdIdempotent` | src/store/boxStore.ts:83-85 | filtering out the same id twice equals filtering it once |
| `Store.SumSplitById` | src/store/boxStore.ts:83-89 | the old total is the new total plus the prices of the removed items |
| `Store.InitialConsistent` | src/store/boxStore.ts:30-38 | the default configuration satisfies `totalPrice == Sum(items)` |
| `Store.AddItem` | src/store/boxStore.ts:64-79 | the item is appended at the end (no duplicate or capacity check); the total is the sum of the new items, i.e. the old consistent total plus the price; no other field changes |
| `Store.RemoveItem` | src/store/boxStore.ts:81-98 | the items are the filtered list; the total is its sum, i.e. the old consistent total minus the removed prices; no other field changes |
| `Store.RemoveAbsentIsNoOp` | src/store/boxStore.ts:81-98 | removing an absent id from a consistent configuration returns it unchanged |
| `Store.RemoveIdempotent` | src/store/boxStore.ts:81-98 | after a removal no item has the id, and removing it again changes nothing |
| `Store.AddThenRemoveRestores` | src/store/boxStore.ts:64-98 | adding an item with a fresh id and then removing that id restores a consistent configuration exactly |
| `Store.ApplyPatch` | src/store/boxStore.ts:49-62 | each field given in the patch overwrites, every absent field is kept; the total is the sum of the given items when items are given, otherwise the given total or the stored one |
| `Store.PatchKeepsConsistentIff` | src/store/boxStore.ts:49-62 | from a consistent configuration, a patch keeps the price invariant if and only if it gives items or gives no total other than the stored one |
| `Store.SizePatchKeepsTotal` | src/store/boxStore.ts:49-62 | a patch with only a size changes the size and nothing else, total included |
| `Store.TotalOnlyPatchBreaksInvariant` | src/store/boxStore.ts:54-59 | a patch giving only `totalPrice` breaks the invariant on the default box |
| `Store.BoxStore.constructor` | src/store/boxStore.ts:40-47 | initial state: default box, no user, empty catalog, the six categories, "All", preview off, not loading |
| `Store.BoxStore.SetBoxConfig` | src/store/boxStore.ts:49-62 | stores `ApplyPatch` of the old configuration and changes no other field; keeps the invariant when the patch gives items or no total |
| `Store.BoxStore.AddItemToBox` | src/store/boxStore.ts:64-79 | stores `AddItem` of the old configuration; the invariant holds afterwards from any state |
| `Store.BoxStore.RemoveItemFromBox` | src/store/boxStore.ts:81-98 | stores `RemoveItem` of the old configuration; the invariant holds afterwards from any state |
| `Store.BoxStore.ClearBox` | src/store/boxStore.ts:100-104 | the configuration becomes exactly the default from any state |
| `Store.BoxStore.SetSelectedCategory` | src/store/boxStore.ts:106-108 | sets the category filter; the box is not touched |
| `Store.BoxStore.Toggle3DPreview` | src/store/boxStore.ts:110-112 | negates the preview flag; the box is not touched |
| `Store.BoxStore.SetCurrentUser` | src/store/boxStore.ts:114-116 | sets the current user only |
| `Store.BoxStore.SetAvailableItems` | src/store/boxStore.ts:118-120 | replaces the catalog only |
| `Store.BoxStore.SetLoading` | src/store/boxStore.ts:122-124 | sets the loading flag only |
| `Store.ToggleTwice` | src/store/boxStore.ts:110-112 | two toggles give back the original flag and leave the box as it was |
| `Store.ClearTwice` | src/store/boxStore.ts:100-104 | clearing is idempotent |
| `BuildPage.CategoriesExtendStore` | src/app/build/page.tsx:86-94 | the filter buttons are "All" followed by the store's six categories |
| `BuildPage.FilteredItems` | src/app/build/page.tsx:81-84 | "All" shows the whole catalog; any other category shows exactly the items of that category; the result is always a subsequence of the catalog |
| `BuildPage.FilteredCount` | src/app/build/page.tsx:84 | under a category, each matching item appears as often as in the catalog and no other item appears |
| `BuildPage.CheckoutFollowsItems` | src/app/build/page.tsx:206-212 | checkout is disabled if and only if the box is empty: adding any item enables it, the default box disables it |
| `BuildPage.ItemNoun` | src/app/build/page.tsx:702-705 | the noun is "item" exactly for a count of 1 and "items" otherwise |
| `BuildPage.SurchargeCaption` | src/app/build/page.tsx:198-200 | the caption is "Free" if and only if the surcharge is 0, otherwise "+R" and the price |
| `BuildPage.InlineTablesMatchBoxSizes` | src/app/build/page.tsx:178-622 | the inline size tables list the four `BOX_SIZES` keys and prices in order. The mobile table (178-182) says "XL" for extra-large. Each of the four identical full tables (221-246, 277-302, 333-358, 597-622) repeats the labels and dimensions |
| `BuildPage.ShownTotalExcludesSurcharge` | src/app/build/page.tsx:165-199 | after a size button the shown total is the item sum, which differs from item sum plus surcharge for every size but small |
| `BuildPage.LoadCatalog` | src/app/build/page.tsx:75-79 | the mount effect publishes the six built-in items to the store; its frame is the catalog field alone, so nothing else in the store changes |
| `BuildPage.ChooseSize` | src/app/build/page.tsx:191-195 | a size button changes only the box's size (frame: the box field alone); the total is unchanged |
| `BuildPage.ChooseColor` | src/app/build/page.tsx:553-555 | a colour swatch changes only the box colour (frame: the box field alone) |
| `BuildPage.ChooseRibbonColor` | src/app/build/page.tsx:582-586 | a ribbon swatch changes only the ribbon colour (frame: the box field alone) |
| `AdminPage.IsAdmin` | src/app/admin/page.tsx:45-46 | the admin check is true for every user, signed in or not |
| `AdminPage.View` | src/app/admin/page.tsx:48-86 | the dashboard renders if and only if a user is signed in; the permission-denied screen never renders |
| `AdminPage.ReplaceById` | src/app/admin/page.tsx:101 | same length and ids at every position; positions with the saved id hold the saved item, all others are unchanged |
| `AdminPage.ReplaceAbsentIsNoOp` | src/app/admin/page.tsx:99-101 | saving an item whose id no entry carries leaves the list unchanged |
| `AdminPage.ReplaceIdempotent` | src/app/admin/page.tsx:101 | saving the same item twice equals saving it once |
| `AdminPage.SavedItems` | src/app/admin/page.tsx:99-105 | with an item being edited the list is replaced by id; with none, exactly one item with the fresh id is appended after the unchanged list |
| `AdminPage.ApplyEdits` | src/app/admin/page.tsx:325-390 | the item form's inputs never change the id, image or dimensions of the form data |
| `AdminPage.AddNewItemIsLost` | src/app/admin/page.tsx:153-164 | saving the form opened by "Add New Item" leaves any list without an id-"" item unchanged, whatever was typed |
| `AdminPage.AddNewItemIsLostOnStartingList` | src/app/admin/page.tsx:153-164 | concretely: a new "Tulips" item saved onto the three starting items is lost |
| `AdminPage.SavedItemsFixed` | src/app/admin/page.tsx:99-108 | corrected save: agrees with the code whenever an existing item (non-empty id) is being edited |
| `AdminPage.AddNewItemAppendsWhenFixed` | src/app/admin/page.tsx:102-104 | with the correction, saving the new-item form appends exactly that item under the fresh id |
| `AdminPage.AdminDashboard.constructor` | src/app/admin/page.tsx:41-43 | starts with the three mock items, not editing, no item in hand |
| `AdminPage.AdminDashboard.FormShown` | src/app/admin/page.tsx:171 | the form is shown only while editing with an item in hand, so a save from it always finds `editingItem` set |
| `AdminPage.AdminDashboard.HandleEditItem` | src/app/admin/page.tsx:88-91 | opens the form on the given item |
| `AdminPage.AdminDashboard.AddNewItem` | src/app/admin/page.tsx:154-164 | opens the form on the blank item, which is non-null |
| `AdminPage.AdminDashboard.HandleDeleteItem` | src/app/admin/page.tsx:93-97 | a confirmed delete removes every item with the id (order kept); a declined one changes nothing |
| `AdminPage.AdminDashboard.HandleSaveItem` | src/app/admin/page.tsx:99-108 | the list becomes `SavedItems` of the old list and old editing state; afterwards the form is closed and no item is in hand |
| `AdminPage.AdminDashboard.HandleCancel` | src/app/admin/page.tsx:175-178 | closes the form and never touches the list |
| `OnboardingTour.StepsNumbered` | src/components/ui/onboarding.tsx:21-58 | there are five steps, numbered 1 to 5 in order |
| `OnboardingTour.ProgressBar` | src/components/ui/onboarding.tsx:115-125 | the progress bar has one segment per step |
| `OnboardingTour.CountFilledPrefix` | src/components/ui/onboarding.tsx:116-124 | a bar filled on its first m segments counts m filled segments |
| `OnboardingTour.FilledSegments` | src/components/ui/onboarding.tsx:116-121 | exactly `currentStep + 1` segments are filled |
| `OnboardingTour.BackVisible` | src/components/ui/onboarding.tsx:157-161 | the Back button shows exactly when more than one progress segment is filled, i.e. after the first step |
| `OnboardingTour.PrimaryLabel` | src/components/ui/onboarding.tsx:166-168 | the primary button says "Get Started!" if and only if on the last step, else "Next" |
| `OnboardingTour.Onboarding.constructor` | src/components/ui/onboarding.tsx:61-62 | the tour starts on step 0, visible as the prop says, not completed |
| `OnboardingTour.Onboarding.CurrentStep` | src/components/ui/onboarding.tsx:93 | the step on screen is the one numbered `currentStep + 1` |
| `OnboardingTour.Onboarding.SyncVisibility` | src/components/ui/onboarding.tsx:64-66 | the visibility prop is copied into the state |
| `OnboardingTour.Onboarding.CompleteOnboarding` | src/components/ui/onboarding.tsx:86-89 | hides the tour and calls `onComplete` once |
| `OnboardingTour.Onboarding.NextStep` | src/components/ui/onboarding.tsx:68-74 | below the last step: one step forward, no completion; on the last step: the step stays, the tour hides and completes once; the step stays in range |
| `OnboardingTour.Onboarding.PrevStep` | src/components/ui/onboarding.tsx:76-80 | one step back, nothing on step 0; the step stays in range |
| `OnboardingTour.Onboarding.SkipOnboarding` | src/components/ui/onboarding.tsx:82-84 | completes from any step |
| `Toasts.MakeToast` | src/components/ui/toast.tsx:37-38 | the toast carries the given id and the request's kind, title, message and duration |
| `Toasts.AutoRemoveDelay` | src/components/ui/toast.tsx:42-45 | the delay is the duration when given and non-zero, else 4000 |
| `Toasts.WithoutToast` | src/components/ui/toast.tsx:48-50 | no toast with the id is left, every other toast stays, in order |
| `Toasts.WithoutToastCount` | src/components/ui/toast.tsx:49 | all occurrences with the id go; other toasts keep all their occurrences |
| `Toasts.RemoveAbsentToast` | src/components/ui/toast.tsx:49 | removing an absent id leaves the list unchanged |
| `Toasts.RemoveToastIdempotent` | src/components/ui/toast.tsx:49 | removing the same id twice equals removing it once |
| `Toasts.AddThenRemoveToast` | src/components/ui/toast.tsx:36-50 | a toast added under a fresh id and then removed by its timer leaves the other toasts as they were |
| `Toasts.ToastStyles` | src/components/ui/toast.tsx:64-77 | success green, error red, warning yellow with black text, info blue; each with a border of its own hue |
| `Toasts.ToastIcon` | src/components/ui/toast.tsx:79-92 | success a check mark, error a cross, warning a warning sign, info an information sign |
| `Toasts.StylesAndIconsDistinct` | src/components/ui/toast.tsx:64-92 | the four kinds have four different styles and four different icons |
| `Toasts.ToastProvider.constructor` | src/components/ui/toast.tsx:34 | no toasts at first |
| `Toasts.ToastProvider.AddToast` | src/components/ui/toast.tsx:36-46 | appends exactly one toast with the given id after the existing ones and returns its auto-removal delay |
| `Toasts.ToastProvider.RemoveToast` | src/components/ui/toast.tsx:48-50 | the list becomes `WithoutToast` of the old list |
| `Toasts.ShowThenExpire` | src/components/ui/toast.tsx:36-50 | showing a toast under a fresh id and letting it expire leaves the list as before |
| `ResetPassword.CheckPasswords` | src/app/auth/reset-password/page.tsx:46-56 | mismatch if and only if the passwords differ (checked first); too short if and only if they match and are under 6; accepted otherwise |
| `ResetPassword.CheckMessage` | src/app/auth/reset-password/page.tsx:46-56 | a failed check shows "Passwords do not match" exactly when the passwords differ, and "Password must be at least 6 characters long" when the password is too short |
| `ResetPassword.ThrownMessage` | src/app/auth/reset-password/page.tsx:72-73 | a thrown error shows its message, or "An unexpected error occurred" when the message is missing or empty |
| `ResetPassword.ScreenFor` | src/app/auth/reset-password/page.tsx:79-151 | success wins over an invalid session, which wins over the form |
| `ResetPassword.ResetPasswordPage.constructor` | src/app/auth/reset-password/page.tsx:13-18 | empty fields, no error, nothing loading or done, session not yet valid |
| `ResetPassword.ResetPasswordPage.SessionChecked` | src/app/auth/reset-password/page.tsx:20-39 | a found session marks the link valid; a failed lookup changes nothing |
| `ResetPassword.ResetPasswordPage.SetPassword` | src/app/auth/reset-password/page.tsx:175 | stores the typed password |
| `ResetPassword.ResetPasswordPage.SetConfirmPassword` | src/app/auth/reset-password/page.tsx:190 | stores the typed confirmation |
| `ResetPassword.ResetPasswordPage.HandleSubmit` | src/app/auth/reset-password/page.tsx:41-77 | a failed check sets its message and never calls the update; otherwise the update is called exactly once and its outcome sets success or the error; loading is false on every exit |
| `GiftBox3D.BoxDimensions` | src/components/GiftBox3D.tsx:346-357 | every size string gives positive dimensions; an unknown one gives the medium box |
| `GiftBox3D.DimensionsBySize` | src/components/GiftBox3D.tsx:347-355 | small 1.5x1.2x1.2, medium 2x1.5x1.5, large 2.5x1.8x1.8, extra-large 3x2.2x2.2 |
| `GiftBox3D.DimensionsIncrease` | src/components/GiftBox3D.tsx:348-355 | width, height and depth each strictly increase with the size |
| `GiftBox3D.SelectBow` | src/components/GiftBox3D.tsx:393-410 | an unknown style draws the classic bow; the minimalist bow is drawn exactly for "minimalist" |
| `GiftBox3D.EachStyleSelectsItsBow` | src/components/GiftBox3D.tsx:394-406 | each of the five style strings selects its own bow |
| `GiftBox3D.BowLift` | src/components/GiftBox3D.tsx:67-305 | every bow's offset above the box's half-height is positive |
| `GiftBox3D.BowLiftByStyle` | src/components/GiftBox3D.tsx:67-305 | the offsets are 0.25 classic (67), 0.2 elegant (123), 0.3 playful (166), 0.35 luxury (223) and 0.15 minimalist (305) |
| `GiftBox3D.VerticalRibbonIffNotMinimalist` | src/components/GiftBox3D.tsx:453-467 | the vertical strip is drawn if and only if the minimalist bow is not |
| `GiftBox3D.SceneFor` | src/components/GiftBox3D.tsx:335-470 | with the prop defaults, the bow sits at the lid's height plus its style's offset, the strip appears unless minimalist, and the minimalist band is 0.12 wider and deeper than the box |

## Left out

- Hosted backend and auth calls: the password update and session lookup are parameters (`UpdateOutcome`, `SessionChecked`). The sign-in page and the backend client are not part of this model.
- The checkout page is not part of this model. It only reads the store and calls `clearBox` after a simulated order.
- Timers are not modelled: the toast's auto-removal (`AddToast` returns the delay, and the caller then calls `RemoveToast`), and the 2-second redirect after a password reset.
- Random and clock-based ids are parameters: the toast id and the admin `Date.now()` id. The admin orders tab, with its random totals, is not modelled.
- Floating-point rounding of price sums and `toFixed(2)` are not modelled: prices are exact reals.
- BuildPage.SurchargeCaption: the price's decimal text is a parameter, because JavaScript's number-to-string conversion is not modelled.
- The admin form's `parseFloat(...) || 0` is not modelled: a price edit carries the parsed real.
- Types.BoxSize: the size is a closed four-value datatype. A string outside the four keys, which `setBoxConfig` would store as given (the builder page casts with `as any`, src/app/build/page.tsx:194), cannot be represented. Every call site passes one of the four keys.
- Store.ApplyPatch: a key present with the value `undefined` (which the JavaScript spread would copy) is not modelled; an absent key is `None`.
- ResetPassword.CheckPasswords: length is counted in Unicode characters, while JavaScript counts UTF-16 code units. The browser's own `required`/`minLength` form checks are not modelled.
- Toasts.ToastStyles and Toasts.ToastIcon: the `default` branches (grey style, bulb icon) cannot be reached, because the toast kind is a closed datatype.
- OnboardingTour.OnboardingSteps: only the step ids and titles are kept; descriptions, tour targets and positions are presentation.
- The admin page's tab switching and the categories and orders tabs are presentation over mock data.
- GiftBox3D: the colour, item-decoration and animation props, hover scaling, `useFrame` rotation, particles, lights and camera are rendering, not modelled.
- The builder page's four full size tables (src/app/build/page.tsx:221-246, 277-302, 333-358 and 597-622) are identical apart from indentation. They are modelled once (`SizeOptions`), beside the mobile table.

## Findings

| source | as written | input that shows it | evidently intended | confidence | as-written member | corrected member |
|---|---|---|---|---|---|---|
| src/app/admin/page.tsx:154-163 | "Add New Item" puts a non-null blank item (id "") in `editingItem`. Saving therefore takes the replace-by-id branch (line 100-101), which matches no item. | The three starting items. Press "Add New Item", type name "Tulips", category Flowers, price 99, then save: the list is unchanged and the new item is lost. | Saving the new-item form appends the item under a fresh id (line 102-104). | high; not executed | `AdminPage.AddNewItemIsLost` | `AdminPage.SavedItemsFixed` |

# auto_acounting: a Dafny model of the totalisers and the image store

This project models the three pieces of sequential logic in the "auto
accounting" demo:

- **The backend price totaliser** (`calculate_total_price`). It takes a price
  per product name and a quantity per product name. It returns the sum of
  price × quantity over the ordered names. A name with no price only prints a
  warning and counts as 0. Module `PriceTotal`, with the order-free set sum in
  module `SetSum`.
- **The result screen's line-item total** (`calculateTotal`). This is a reduce
  from 0 over the product rows that adds `unitPrice * quantity` for each row.
  The screen applies it to a fixed four-row catalog. Module `ResultTotal`.
- **The shared image store** (`ImageProvider`'s `setImage` / `clearImage`).
  There is either no current image or one `ImageData` (file, preview URL, file
  name). Preview URLs come from the browser's object-URL registry. Module
  `ImageStore`.

Python dictionaries are modelled as `map<string, int>`. The bill `Total` sums
each ordered name's contribution over the key set. `SetSum.Sum` takes the
elements out in an arbitrary order, and `SetSum.SumRemove` shows that the
choice never matters. `CalculateTotalPrice` is the loop itself. It takes any
unvisited name at each step, so it stands for every order in which the
dictionary could be iterated. `TotalAlong` is the running total along one
explicit order, and `OrderIndependent` shows that every duplicate-free
enumeration of the keys gives the same bill.

The browser's `URL.createObjectURL` is modelled as a registry (`UrlRegistry`)
that issues fresh serial numbers. `URL.revokeObjectURL` removes a URL from the
registry's live set. The live set is ordinary model state that stands for the
browser's registry; the program itself does not store it. The store is a value,
and `SetImage` / `ClearImage` map the state before a call to the state after it.

**What the store does not guarantee.** `setImage`
(frontend/app/contexts/ImageContext.tsx:75-82) does not revoke the previous
preview URL. A replaced image's URL stays live although the store no longer
refers to it (`SetImageKeepsPreviousUrl`). Two selections leave two live URLs
(`TwoSelectionsLeaveTwoLiveUrls`), so the store does not keep at most one live
URL. What it does guarantee is `Valid`: the current preview URL is always live
and was issued by the registry. `Run` shows that every sequence of actions
preserves `Valid`.

## Model

| member | source | states |
|---|---|---|
| PriceTotal.Contribution | backend/api/sum.py:14-19 | a name with no price contributes 0; a quantity of 0 contributes 0; a priced name ordered once contributes its price |
| PriceTotal.CalculateTotalPrice | backend/api/sum.py:12-23 | the loop, visiting the ordered names in any order, returns the order-free sum of every ordered name's contribution |
| PriceTotal.OrderIndependent | backend/api/sum.py:13-15 | the running total along any duplicate-free enumeration of the ordered names equals the order-free bill, so any two iteration orders agree |
| PriceTotal.TotalAlongIsSum | backend/api/sum.py:13-15 | visiting each name of a set exactly once, in any order, accumulates the set sum of the contributions |
| PriceTotal.NoItemsTotal | backend/api/sum.py:12-13 | an empty order costs 0 whatever the prices are |
| PriceTotal.TotalIsPricedSum | backend/api/sum.py:13-15 | the bill is the sum of price × quantity over the names that are both ordered and priced |
| PriceTotal.RemoveItem | backend/api/sum.py:13-15 | each ordered name adds its own contribution exactly once: the bill is that contribution plus the bill without the name |
| PriceTotal.UnpricedItemIgnored | backend/api/sum.py:16-19 | dropping a name that has no price from the order leaves the bill unchanged |
| PriceTotal.ZeroQuantityIgnored | backend/api/sum.py:13-15 | dropping a name ordered zero times leaves the bill unchanged |
| PriceTotal.OnlyOrderedPricesMatter | backend/api/sum.py:13-14 | two price lists that agree on the ordered names give the same bill; prices of names that were not ordered are never consulted |
| PriceTotal.BasicCalculation | backend/api/sum.py:32-41 | ANPAN 200 × 2 plus PEN 100 × 1 gives 500 |
| PriceTotal.EmptyItems | backend/api/sum.py:43-52 | an empty order against ANPAN/PEN prices gives 0 |
| PriceTotal.MissingPrice | backend/api/sum.py:54-64 | ANPAN without a price counts 0, so the bill is PEN's 100 |
| PriceTotal.ZeroQuantity | backend/api/sum.py:66-75 | PEN ordered zero times counts 0, so the bill is ANPAN's 400 |
| ResultTotal.Reduce | frontend/app/result/page.tsx:57 | the reduce from any accumulator adds exactly the sum of the row amounts to it |
| ResultTotal.CalculateTotal | frontend/app/result/page.tsx:56-58 | the total is the sum of unitPrice × quantity over the rows, and 0 for no rows |
| ResultTotal.CalculateTotalAppend | frontend/app/result/page.tsx:57 | the total of two row lists put together is the sum of their totals |
| ResultTotal.CalculateTotalNonNegative | frontend/app/result/page.tsx:57 | rows with no negative quantity or unit price give a total that is not negative |
| ResultTotal.CatalogNonNegative | frontend/app/result/page.tsx:44-49 | the displayed catalog has no negative quantity or price, so its total is not negative |
| ResultTotal.CatalogTotal | frontend/app/result/page.tsx:44-58 | the four-row catalog (1500, 2000, 1200, 1800, one each) totals 6500 |
| ResultTotal.LabelsIrrelevant | frontend/app/result/page.tsx:20-29 | names and icons do not affect the total: rows with equal quantities and prices give equal totals |
| ImageStore.CreateObjectUrl | frontend/app/contexts/ImageContext.tsx:76 | creating a preview URL issues one URL that was never issued before and makes it live |
| ImageStore.RevokeObjectUrl | frontend/app/contexts/ImageContext.tsx:88-90 | revoking removes exactly that URL from the live set; revoking a URL that is not live changes nothing |
| ImageStore.Init | frontend/app/contexts/ImageContext.tsx:68 | the provider starts with no current image and no live URL |
| ImageStore.SetImage | frontend/app/contexts/ImageContext.tsx:75-82 | afterwards the current image holds the given file and its name, with one preview URL that was never issued before; every URL live before stays live and nothing else is added |
| ImageStore.ClearImage | frontend/app/contexts/ImageContext.tsx:87-92 | afterwards there is no current image; exactly the old preview URL is revoked if there was one, and with no current image nothing changes |
| ImageStore.ClearImageIdempotent | frontend/app/contexts/ImageContext.tsx:87-92 | clearing twice gives the same state as clearing once, so the second call revokes nothing |
| ImageStore.Run | frontend/app/contexts/ImageContext.tsx:67-92 | any sequence of selections and clears keeps the current preview URL live and the registry consistent |
| ImageStore.LastActionDecides | frontend/app/contexts/ImageContext.tsx:75-92 | after any actions the store shows an image exactly when the last action was a selection, and then it shows that file |
| ImageStore.SetImageKeepsPreviousUrl | frontend/app/contexts/ImageContext.tsx:75-82 | replacing an image leaves the old preview URL live although the store no longer refers to it |
| ImageStore.TwoSelectionsLeaveTwoLiveUrls | frontend/app/contexts/ImageContext.tsx:75-82 | two selections in a row from the start leave two live preview URLs |

## Left out

- The `print` calls of `calculate_total_price` (the missing-price warning and the dumps of the inputs and the total). They are console output only.
- The Python `unittest` runner. Its four cases are stated as lemmas instead.
- ResultTotal.CalculateTotal: JavaScript numbers are IEEE doubles, but the model uses unbounded integers. The two agree when every quantity, unit price, row amount and partial sum is an integer of magnitude at most 2^53. Rows with non-negative integer entries whose total is at most 2^53 meet this, and so does the catalog. Rows with a fractional `number` quantity or price are not modelled.
- ResultTotal.Reduce: its contract also assumes exact integer addition at every step, under the same bound as CalculateTotal.
- ImageStore.ClearImage: the source guard tests whether `currentImage?.previewUrl` is truthy. An object URL is never the empty string, so the model tests only whether there is a current image.
- Object URLs are modelled as serial numbers, not `blob:` strings. The file's contents are never read by the store.
- React specifics: `useState` update scheduling, the `currentImage` captured by the `clearImage` closure, and the context plumbing. `useImageContext`'s missing-provider error is also left out. The store is modelled as one sequential state value.
- The top screen (frontend/app/page.tsx) is left out. It covers the file picker, the multipart upload to the backend, the error alerts and the navigation. This is DOM, network and routing glue. The guard that sends no request without a current image is too thin to model on its own.
- Rendering: JSX, `toLocaleString` formatting and styling.
- backend/api/classifier.py and backend/models/train_and_save_model.py. These are Keras/OpenCV model construction, training and floating-point inference, all foreign library calls.

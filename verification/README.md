# Mini image gallery: the record store and the upload gate, in Dafny

This project models the core of the mini image gallery backend
(`backend/server.js`): the in-memory `ImageStore` that keeps uploaded
images as an ordered list of records stamped with increasing ids, the
multer admission gate in front of `POST /upload` (file present, MIME type
in the allow-list, at most 3 MiB), the upload handler's
process → `add` → attach-dimensions commit, and the `GET /stats` fold.
It also models JavaScript's `parseInt`, which turns the `:id` path
parameter into the key that `get` and `delete` compare with record ids.

Files:

- `wrappers.dfy` — `Option` (JavaScript's `undefined`, `null`, `NaN`) and `Result`.
- `js_parse.dfy` — `ParseInt` (no radix: leading white space, one sign, a `0x` prefix, the longest digit run; `None` for NaN) and `DecimalString` (the decimal digits of a non-negative integer, which is how the client renders ids below 2^53 into URLs).
- `store.dfy` — the records (`ImageRecord`, `PublicView`, `Dimensions`), `findIndex` / `splice` / `map` as functions on sequences, and the class `ImageStore` with fields `images` and `nextId` and a ghost set `issued` of every id ever handed out.
- `upload.dfy` — the allow-list, the size limit, the gate `CheckUpload`, `ProcessImage` with its two random draws passed in, and the `/upload` handler `UploadImage`.
- `stats.dfy` — the `reduce` fold, the `/stats` payload and how it changes under add and remove.
- `scenarios.dfy` — request sequences against a fresh store. Five follow the intent of the server's test suite, read against the handler's `data` payload (the suite itself reads `id` and `filename` at the top level of the response body); `IdsNotReused`, `DeleteWithTrailingText` and `StatsAfterOneUpload` are the model's own.

The store's object invariant `ImageStore.Valid()` says that `nextId >= 1`,
that `issued` is exactly `{1, …, nextId - 1}`, that every stored id was
issued, and that ids increase strictly along the list (so they are
unique). `Add` and `Delete` keep it; `Add` hands out an id that is
greater than every id issued before, including ids of records deleted
since.

Notes on the code's behaviour:

- The allow-list also accepts `image/jpg`, not only `image/jpeg` and `image/png`.
- A key such as `"3abc"` is not rejected: `parseInt` reads it as 3 (`ParseIntDecimalPrefix`, `ParseIntExamples`, `Scenarios.DeleteWithTrailingText`). Likewise `"0x1"` is read as hexadecimal 1.
- The error-handling middleware (`server.js:86-99`) is registered before the routes. Express dispatches an error only to the error handlers registered after the failing layer, so the 400 mapping written there does not apply to errors raised by the upload middleware. The model returns the error kinds (`MissingFile`, `UnsupportedType`, `FileTooLarge`) and does not model HTTP statuses.

## Model

| member | source | states |
|---|---|---|
| `Store.ImageStore.constructor` | backend/server.js:21-24 | A new store is empty, its next id is 1, and it has issued no id. |
| `Store.ImageStore.Add` | backend/server.js:26-37 | The new record gets the old `nextId` as its id and no dimensions. That id was never issued before and exceeds every earlier id. `nextId` grows by one. The record is appended at the end and earlier records are unchanged. The invariant is kept. |
| `Store.ImageStore.Get` | backend/server.js:39-41 | A result is a stored record whose id equals `parseInt(id)`. None means that no record matches. Since ids are unique, a result is the only matching record. |
| `Store.Project` | backend/server.js:43-51 | `getAll` returns one view per record, in the same order. Each view is `View` of the record at the same position. |
| `Store.ImageStore.GetAll` | backend/server.js:43-51 | One view per record, in store order; each is `View` of the record at the same position, so none carries `data`. |
| `Store.ViewForgetsOnlyData` | backend/server.js:44-51 | Two records have equal public views exactly when they differ at most in their bytes. So the view keeps every field except `data`. |
| `Store.FindIndex` | backend/server.js:55 | Returns the first index whose record matches the parsed key, or -1 when no record matches. A NaN key matches nothing. |
| `Store.RemoveAt` | backend/server.js:57 | `splice(i, 1)` drops exactly position `i`. The records before `i` keep their positions and the rest shift down by one. The multiset loses exactly that one record. |
| `Store.ImageStore.Delete` | backend/server.js:54-60 | With a matching record, it returns the first match and the list becomes `RemoveAt` at that index. With no match, it returns None and the list is unchanged. `nextId` and the issued ids never change, and the invariant is kept. |
| `Store.ImageStore.GetCount` | backend/server.js:62-64 | The count equals the length of the `getAll` listing. |
| `JsParse.ParseInt` | backend/server.js:40 | `parseInt` without a radix; its behaviour is stated by the lemmas `ParseIntNeedsDigit`, `ParseIntDecimalStart`, `ParseIntDecimalPrefix`, `ParseIntRoundTrip`, `ParseIntNoDigits` and `ParseIntExamples`. |
| `JsParse.ParseIntNeedsDigit` | backend/server.js:40 | A number comes only from an input that holds a digit, and it is negative only after a leading `-`. |
| `JsParse.TrimStart` | backend/server.js:40 | `parseInt` strips only a leading run of white space, and what it keeps does not start with white space. |
| `JsParse.DigitPrefixLength` | backend/server.js:40 | Gives the length of the longest prefix of radix digits: every character before it is a digit and the next one is not. |
| `JsParse.DecimalString` | frontend/src/App.js:378 | The client renders an id as a non-empty string of decimal digits. It has a leading zero only for 0. |
| `JsParse.DecimalStringValue` | frontend/src/App.js:378 | The digits of `DecimalString(n)` have the value `n`. |
| `JsParse.DigitPrefixOfDigits` | backend/server.js:40 | After a run of digits, the scan stops at the first non-digit. |
| `JsParse.ParseIntDecimalStart` | backend/server.js:40 | A key that starts with a decimal digit, and not with `0x`, is read in radix 10 from its first character. |
| `JsParse.ParseIntDecimalPrefix` | backend/server.js:40 | `parseInt(DecimalString(n) + t)` is `n` whenever `t` does not start with a digit (nor with `x` after `0`). Trailing text is ignored, not rejected. |
| `JsParse.ParseIntRoundTrip` | backend/server.js:55 | `parseInt(DecimalString(n)) == n` for every non-negative `n`, so a delete by the rendered id finds the record. |
| `JsParse.ParseIntNoDigits` | backend/server.js:40 | A key with no digit at its start (after no white space or sign) is NaN, so it matches no record. |
| `JsParse.ParseIntExamples` | backend/server.js:40 | `parseInt("3abc")` is 3 and `parseInt("abc")` is NaN. |
| `Upload.FileFilter` | backend/server.js:75-82 | A MIME type passes exactly when it is `image/jpeg`, `image/png` or `image/jpg`. |
| `Upload.CheckUpload` | backend/server.js:70-83 | Accepts exactly when a file is present, its type is one of `image/jpeg`, `image/png` and `image/jpg`, and its size is at most 3·1024·1024 bytes. Otherwise it names the first failing check: missing file, then type, then size. |
| `Upload.ProcessImage` | backend/server.js:102-111 | For draws in [0, 1), the width lies in [400, 1199] and the height in [300, 899]. |
| `Upload.ProcessImageCoversRange` | backend/server.js:106-107 | Every width and height in those ranges is produced by some pair of draws, so the range is exact. |
| `Upload.UploadImage` | backend/server.js:155-196 | A refused upload returns the gate's error and leaves the records, `nextId` and the issued ids unchanged. An accepted one appends exactly one record: it carries the old `nextId`, the file's name, type and bytes, its size and the processed dimensions. It returns that record's view. Every record it commits satisfies the gate. |
| `Stats.ReduceSizes` | backend/server.js:240 | The `reduce` fold from an accumulator gives that accumulator plus the reference sum `SumSizes` of the sizes. |
| `Stats.ComputeStats` | backend/server.js:238-249 | `totalImages` is the number of views and `totalSize` is the sum of their sizes. `averageSize` times the count is the total, and the average is 0 when there are no views. |
| `Stats.GetStats` | backend/server.js:238-249 | The stats of a store count its records and sum the sizes in its `getAll` listing. The average times the count is the total, and it is 0 for an empty store. |
| `Stats.SumSizesAppend` | backend/server.js:240 | The size sum distributes over concatenation. |
| `Stats.SumSizesRemove` | backend/server.js:240 | Removing position `i` lowers the size sum by that element's size. |
| `Stats.ProjectAppend` | backend/server.js:43-51 | Listing a concatenation equals concatenating the listings. |
| `Stats.ProjectRemoveAt` | backend/server.js:43-51 | Listing after a splice equals splicing the listing. |
| `Stats.StatsAfterAdd` | backend/server.js:35 | Appending a record raises `totalImages` by one and `totalSize` by its size. |
| `Stats.StatsAfterRemove` | backend/server.js:57 | Removing a record lowers `totalImages` by one and `totalSize` by its size. |
| `Stats.SumSizesBounds` | backend/server.js:240 | When every size is at most `m`, the sum lies between 0 and `count·m`. |
| `Stats.RemoveAtKeepsAdmitted` | backend/server.js:57 | Removing a record from a list of records that all passed the gate leaves only records that passed it. So `AverageWithinLimit` also holds after deletions. |
| `Stats.AverageWithinLimit` | backend/server.js:247 | When every record passed the gate, `averageSize` lies between 0 and 3 MiB. |
| `Scenarios.UploadValidImage` | backend/tests/server.test.js:21-32 | A JPEG within the limit is stored under id 1, with its name and size, with dimensions in range, and the count becomes 1. |
| `Scenarios.RejectNonImage` | backend/tests/server.test.js:34-43 | A `text/plain` upload is refused as an unsupported type and nothing is stored. |
| `Scenarios.RejectMissingFile` | backend/tests/server.test.js:45-50 | An upload with no file is refused as missing and nothing is stored. |
| `Scenarios.UploadThenDelete` | backend/tests/server.test.js:54-70 | Deleting by the rendered id of a fresh upload returns that record. A later `get` of that id finds nothing and the count returns to 0. |
| `Scenarios.DeleteMissing` | backend/tests/server.test.js:72-77 | Deleting `"999"` from an empty store finds nothing and the count stays 0. |
| `Scenarios.DeleteWithTrailingText` | backend/server.js:55 | `"1abc"` deletes the record with id 1. |
| `Scenarios.IdsNotReused` | backend/server.js:28 | After an upload and its deletion, the next upload gets a larger id. |
| `Scenarios.StatsAfterOneUpload` | backend/server.js:238-249 | After one upload, `totalImages` is 1 and both `totalSize` and `averageSize` equal that file's size. |

## Left out

- HTTP wiring: Express routing, CORS, `express.json`, static files, `app.listen`, status codes, JSON envelopes and error messages. Handlers return tagged results instead.
- `GET /images` and `GET /images/:id` as routes: they return `GetAll` (with its length) and the bytes and MIME type of `Get`'s record. Response headers are not modelled.
- `GET /health`: process uptime, memory use and the clock are runtime introspection.
- Multer's multipart parsing and buffering. Only its contract is modelled: the allow-list, the byte limit, and `size` being the buffer length. A file sent under a field other than `image` (multer's unexpected-field error) is not modelled.
- `processImage`'s 100 ms timer and `Math.random`. The two draws are parameters in [0, 1), and the arithmetic is exact real arithmetic rather than IEEE doubles.
- `uploadedAt`: the clock read `new Date().toISOString()` is an input string.
- The aliasing at `server.js:175`: the handler sets `dimensions` on the object that `add` pushed. The model replaces the last element of `images` with the updated record instead.
- `Store.ImageStore.Add`: ids are exact integers. In the source, `nextId` is a JavaScript Number, and once it reaches 2^53, `nextId++` rounds back to 2^53. From then on it would hand out 2^53 again. So the fresh-id, `nextId + 1` and increasing-ids guarantees describe the source only while `nextId` is below 2^53, after fewer than 2^53 uploads.
- `JsParse.DecimalString`: equals JavaScript's `String(n)` only below 2^53. Above that, `String` gives a rounded value, and from 1e21 an exponent form. So `ParseIntRoundTrip` describes the client's URLs only for ids below 2^53.
- `JsParse.ParseInt`: does not model the rounding of digit strings beyond 2^53 to doubles, or the distinction between `-0` and `0`. Neither can equal a stored id while ids stay below 2^53.
- `Stats.ComputeStats`: `averageSize` is exact real division, not a double. The MB `toFixed(2)` formatting in the logs is not modelled.
- Console logging.
- The whole front end (`frontend/src/App.js`) and the test harness. The harness serves only as the source of the scenarios.

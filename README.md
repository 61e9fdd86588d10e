# Doggy Detective: a Dafny model of the classification core

Doggy Detective is a web application that guesses a dog's breed from a photo.
A React front end uploads the image. A FastAPI back end runs an ImageNet
MobileNetV2 network on it. The back end keeps the dog classes above a
confidence threshold, ranks them, keeps the five best and rescales them to a
total of 100. The front end checks the reply, shows the ranked breeds, and
shows a fixed-form message when anything fails.

This project models that path, the front end's shared API client, and two
selection pages: the breed-mix calculator, whose request goes through that
client, and the breed comparison, which makes no request and builds a mock
comparison on a timer:

- `Home.dfy` models the classification page (`frontend/src/pages/Home.tsx`).
  - `Home.HomePage` is a class holding the page's state.
  - Its methods are the handlers. The asynchronous submit is split in two: `BeginSubmit` (up to the POST) and `CompleteSubmit(outcome)` (after the POST settles).
  - Pure functions give the reply check, the failure message, the breed-info lookup and the top-three name list.
- `ApiClient.dfy` models the shared client (`frontend/src/services/api.ts`).
  - The error interceptor maps every failure to one of three kinds of message.
  - The service functions build requests. The transport is a function parameter.
  - Lemmas read the built paths back with a hypothetical parser that splits at the first slash. No route serving these paths is part of the back end given; a FastAPI route `/compare/{b1}/{b2}` would reject a path with a third segment instead of splitting it.
- `Predictions.dfy` models `get_predictions` and `classify_image` (`backend/main.py`).
  - The loops and the library sort of the source are methods with invariants, each proved equal to a specification function: the filter over classes 151..268, the insertion sort standing for `list.sort`, and the normalisation.
  - Lemmas state what that function promises: positive values summing to 100, best first, and the five largest candidates. They also state when the result is empty.
  - The endpoint is a method returning the HTTP status and body.
- `ModelHandler.dfy` models `backend/model_handler.py`.
  - `_format_breed_name` is modelled with Python's `str.title` rule.
  - The classifier is a class whose `predict` has two fixed fallback results. A failed `load_model` clears both fields.
- `BreedMix.dfy` models the breed-mix calculator (`frontend/src/pages/BreedMixCalculator.tsx`).
  - The state is an ordered selection plus a percentage map. The class invariant is that the map's keys are exactly the selected breeds.
  - Two checks run in order before the request: at least two breeds, then a total within 0.01 of 100.
  - Lemmas show how each handler moves the total.
- `BreedCompare.dfy` models the two-slot comparison page (`frontend/src/pages/BreedComparison.tsx`).
  - At most two breeds can be selected.
  - The timer-delivered mock comparison is built from the pair captured when the button was pressed.
  - A function gives the three-band compatibility message.
- `EndToEnd.dfy` connects the two ends. Home's own axios instance resolves on a 2xx status and rejects otherwise. From that it proves what the page ends up showing for each branch of `classify_image`.
- `Shared.dfy` and `Text.dfy` hold the JSON value type, the uploaded-file record, JavaScript's `filter` on a list, and the ASCII string operations both ends use.

Behaviour the code has, modelled as written:

- The page checks only the media type of a file, never its size.
- Results are not cleared when a submit starts or fails. Retry is not gated. Nothing ties a late reply to the file held when it arrives.
- `typeof null` is `'object'`, so in the per-element check a `null` result element reaches `null.breed`. That throws a `TypeError`, whose text the page then shows (`Home.CheckElement`, `Home.Accept`); the model uses the wording of V8-based browsers.
- The back end's "no dog" `HTTPException(400)` is raised inside its own `try`. The generic handler catches it and answers 500, with the detail `"400: No dog detected in the image"` (the exception's string form). `EndToEnd.Classify` proves the page shows that text.
- `api.ts` posts to `/classify`, while the back end serves `/api/classify`. Only Home's own client uses the served path.
- Paths are built without encoding. A first breed containing `/` makes the comparison path ambiguous (`ApiClient.ComparePathNotInjective`).
- The interceptor replaces an error without response or request by `"Error setting up request"`, dropping its own message (`ApiClient.PlainErrorMessage`). The front end's own test file expects the original message here instead. The model follows the code.
- Selecting two breeds in a fresh mix calculator gives them 100 and 50. So the mix is refused until a slider moves (`BreedMix.DefaultSharesScenario`). More generally, with fewer than 9999 breeds selected, adding a breed to a selection that totals 100 leaves it off target (`BreedMix.DefaultShareBreaksTotal`).
- `model_handler.py` copies the decoder's score unchanged (a fraction). `main.py` multiplies by 100.

## Model

| member | source | states |
|---|---|---|
| `Shared.Without` | frontend/src/pages/BreedComparison.tsx:33 | `filter(b => b !== x)`: the result lacks x, keeps every other element, and keeps only elements of the input; it is the input itself when x is absent |
| `Shared.WithoutAt` | frontend/src/pages/BreedMixCalculator.tsx:25 | in a list without duplicates, filtering out the element at position k removes exactly that position and keeps the order of the rest |
| `Shared.WithoutConcat` | frontend/src/pages/BreedComparison.tsx:33 | filtering a concatenation filters each part |
| `Shared.WithoutNoDuplicates` | frontend/src/pages/BreedMixCalculator.tsx:25 | filtering keeps a duplicate-free selection duplicate-free |
| `Shared.Field` | frontend/src/pages/Home.tsx:170 | a property read yields a value exactly when the value is an object holding that key |
| `Text.Lower` | frontend/src/pages/Home.tsx:234 | `toLowerCase` keeps the length and lower-cases each ASCII letter in place |
| `Text.Replace` | backend/model_handler.py:62 | `replace('_', ' ')` keeps the length and changes exactly the underscores |
| `Text.BeforeComma` | backend/main.py:109 | `split(',')[0]` is a comma-free prefix that ends at the first comma or at the end |
| `Text.Title` | backend/model_handler.py:62 | `str.title` maps each character to one character |
| `Text.TitleSpec` | backend/main.py:109 | Python `str.title`: a letter is upper-cased at the start or after a non-letter, lower-cased after a letter; other characters are kept |
| `Text.TitleIsTitleCased` | backend/model_handler.py:62 | the output of `title` is in title case and has letters exactly where the input has them |
| `Text.TitleIdempotent` | backend/model_handler.py:62 | applying `title` twice equals applying it once |
| `Home.CheckElement` | frontend/src/pages/Home.tsx:181-186 | the per-element check throws exactly on a `null` element |
| `Home.Every` | frontend/src/pages/Home.tsx:181-186 | `.every` passes iff every element has a string `breed` and a numeric `confidence`; otherwise its verdict is that of the first failing element, all before it passing |
| `Home.ResultsArray` | frontend/src/pages/Home.tsx:170 | `results` is read only when present and an array |
| `Home.Accept` | frontend/src/pages/Home.tsx:169-193 | a reply is accepted iff it holds a non-empty `results` array of breed results, which is stored verbatim and in order; a missing or non-array `results` gives the format text, an empty one the no-breeds text; for a non-empty array the element check decides: a malformed element first gives the prediction-format text, a `null` element first gives the `TypeError` text, each iff |
| `Home.NullIsFirstFailure` | frontend/src/pages/Home.tsx:181-190 | the `TypeError` text means the first element that is not a breed result is a `null` |
| `Home.MismatchBeforeNull` | frontend/src/pages/Home.tsx:181-190 | for `[{"x": 1}, null]` the check stops at the first element and throws the prediction-format text |
| `Home.FailureReason` | frontend/src/pages/Home.tsx:202-211 | the middle of the message, by fixed priority: timeout code first, then 413, then 415, then the detail, the message or "Try again! " by truthiness |
| `Home.FailureMessage` | frontend/src/pages/Home.tsx:202-213 | the message is the fixed prefix, the reason and the paw, and the reason can be read back from it |
| `Home.Thrown` | frontend/src/pages/Home.tsx:164-193 | the try block throws nothing iff the POST resolved and its reply was accepted; a transport error is rethrown as it is; a rejected reply throws an Error whose message is the rejection text |
| `Home.TimeoutFirst` | frontend/src/pages/Home.tsx:202-204 | with code `ECONNABORTED` the message is the timeout text whatever status, detail or message accompany it |
| `Home.RejectedReplyMessage` | frontend/src/pages/Home.tsx:170-213 | a rejected reply is reported as the prefix, the text its check threw, and the paw |
| `Home.DetailShown` | frontend/src/pages/Home.tsx:209-213 | for any status but 413 and 415 a non-empty server detail is what the message shows |
| `Home.BreedInfoIn` | frontend/src/pages/Home.tsx:233-235 | the entry of the lower-cased breed when present, the default entry otherwise |
| `Home.GetBreedInfo` | frontend/src/pages/Home.tsx:233-235 | with the table the page ships, every breed gets the default entry |
| `Home.Breeds` | frontend/src/pages/Home.tsx:307 | one name per result, in order, `undefined` rendered as empty |
| `Home.TopBreedNames` | frontend/src/pages/Home.tsx:306-307 | the names of the first min(3, n) results joined by ", ", for each of the four size cases |
| `Home.HomePage.constructor` | frontend/src/pages/Home.tsx:88-98 | the initial state: nothing held, upload box shown, no error |
| `Home.HomePage.HandleFile` | frontend/src/pages/Home.tsx:135-151 | a non-image sets only the error; an image of any size is held, clears error and results and hides both panels; nothing else changes |
| `Home.HomePage.PreviewLoaded` | frontend/src/pages/Home.tsx:146-148 | the reader callback sets only the preview |
| `Home.HomePage.BeginSubmit` | frontend/src/pages/Home.tsx:153-166 | without a file nothing changes and nothing is sent; with one, loading starts, error and retry are cleared, results are kept, and one request carries the file in field "file" to `/api/classify` |
| `Home.HomePage.CompleteSubmit` | frontend/src/pages/Home.tsx:166-217 | loading ends; an accepted reply replaces the results; any failure keeps the old results, shows the failure message and offers retry; only checked results are ever stored |
| `Home.HomePage.HandleRetry` | frontend/src/pages/Home.tsx:220-222 | retry is submit, with no further condition |
| `Home.HomePage.ResetUpload` | frontend/src/pages/Home.tsx:224-231 | file, preview, results and error cleared, upload shown, deep analysis hidden; loading and retry untouched |
| `ApiClient.Normalize` | frontend/src/services/api.ts:15-33 | a server response gives its truthy detail or "An error occurred"; a request without response gives the network text; anything else the setup text |
| `ApiClient.ResponseBranchFirst` | frontend/src/services/api.ts:18-27 | once there is a response, the request flag and the error's own message do not affect the result |
| `ApiClient.BranchesDistinct` | frontend/src/services/api.ts:18-31 | without a server detail, each of the three texts is produced by exactly one branch |
| `ApiClient.PlainErrorMessage` | frontend/src/services/api.ts:27-31 | a plain `Error('API Error')` comes out as "Error setting up request" |
| `ApiClient.Call` | frontend/src/services/api.ts:15-17 | a reply's data passes unchanged; an error is rejected with the normalised message |
| `ApiClient.ClassifyImage` | frontend/src/services/api.ts:96-105 | one POST to `/classify` with the single field "file"; the reply's data comes back unvalidated |
| `ApiClient.AnalyzePath` | frontend/src/services/api.ts:109 | the path is the prefix followed by the breed, unencoded |
| `ApiClient.ComparePath` | frontend/src/services/api.ts:115 | the path is the prefix, the first breed, a slash and the second breed, unencoded |
| `ApiClient.GetBreedAnalysis` | frontend/src/services/api.ts:108-111 | the analysis data of the breed's path, unchanged, or a rejection |
| `ApiClient.CompareBreeds` | frontend/src/services/api.ts:114-117 | the comparison data of the pair's path, unchanged, or a rejection |
| `ApiClient.MixEntries` | frontend/src/services/api.ts:120-122 | one `{name, percentage}` object per breed, in order |
| `ApiClient.MixRequest` | frontend/src/services/api.ts:120-122 | one POST to `/mix` whose `breeds` field reads back as the names and percentages, in order |
| `ApiClient.AnalyzePathRoundTrip` | frontend/src/services/api.ts:109 | stripping the prefix recovers the breed |
| `ApiClient.ComparePathRoundTrip` | frontend/src/services/api.ts:115 | splitting at the first slash recovers the pair when the first breed has no slash |
| `ApiClient.ComparePathNotInjective` | frontend/src/services/api.ts:115 | two different pairs give the same path |
| `Predictions.KeptIndices` | backend/main.py:105-108 | only dog classes in 151..268 whose percentage is above 1.0 are kept |
| `Predictions.Label` | backend/main.py:109 | the label is the text before the first comma, title-cased position by position (same length, each character by the `str.title` rule); so it is title-cased and has no comma |
| `Predictions.KeptIndicesComplete` | backend/main.py:105-108 | no dog class whose percentage is above 1.0 is skipped |
| `Predictions.KeptIndicesIncreasing` | backend/main.py:106 | the kept classes come in increasing index order |
| `Predictions.KeptIndicesEmpty` | backend/main.py:105-108 | nothing is kept exactly when no dog class has a percentage above 1.0 |
| `Predictions.KeptLength` | backend/main.py:105-110 | one entry is collected per kept class |
| `Predictions.KeptAt` | backend/main.py:105-110 | the collected entries are, one for one, the labelled entries of the kept classes |
| `Predictions.CandidatesAboveThreshold` | backend/main.py:107-108 | every collected confidence is above 1.0 |
| `Predictions.CandidateIndices` | backend/main.py:106-108 | an index is kept iff it lies in 151..268 and its percentage is above 1.0 |
| `Predictions.CollectBreedProbs` | backend/main.py:105-110 | the loop appends exactly the kept entries, in index order |
| `Predictions.InsertPermutes` | backend/main.py:113 | one insertion step adds exactly the new element: the result is a rearrangement of the list and it |
| `Predictions.InsertSorted` | backend/main.py:113 | inserting into a list sorted highest first keeps it sorted |
| `Predictions.SortDesc` | backend/main.py:113 | `sort(reverse=True)` by confidence: sorted highest first and a permutation of its input |
| `Predictions.InsertByConfidence` | backend/main.py:113 | the scanning insertion computes one insertion step |
| `Predictions.SortByConfidence` | backend/main.py:113 | the sorting loop computes the sort |
| `Predictions.TakeTop` | backend/main.py:114 | `[:5]` is the prefix of length min(5, n) |
| `Predictions.TotalPositive` | backend/main.py:117-118 | the total of a non-empty list of positive confidences is positive, so the division is defined |
| `Predictions.Scale` | backend/main.py:119-120 | each confidence is divided by the total and multiplied by 100, breed and position kept |
| `Predictions.Normalized` | backend/main.py:117-120 | normalisation keeps the number of entries (its values are stated by NormalizedSumsTo100 and NormalizedKeepsOrder) |
| `Predictions.TotalScaled` | backend/main.py:118-120 | scaling by a total scales the sum by the same factor |
| `Predictions.NormalizedSumsTo100` | backend/main.py:117-120 | after normalisation the confidences add up to exactly 100 |
| `Predictions.NormalizedKeepsOrder` | backend/main.py:117-120 | normalisation keeps length, breeds, positivity and the relative order of every pair |
| `Predictions.NormalizeConfidences` | backend/main.py:116-120 | the in-place rewriting loop computes the normalisation |
| `Predictions.SortedAbove` | backend/main.py:113-114 | sorting and truncating keep every value above the threshold |
| `Predictions.GetPredictions` | backend/main.py:104-122 | the method computes filter, sort, top five and normalisation in that order |
| `Predictions.Predictions` | backend/main.py:104-122 | at most five entries (the rest of what it promises is stated by the three lemmas below) |
| `Predictions.PredictionsShape` | backend/main.py:105-122 | the result has min(5, candidates) entries, highest first, positive, adding up to 100 when non-empty |
| `Predictions.PredictionsAreTopFive` | backend/main.py:113-114 | the result is the head of a sorted permutation of all candidates: nothing left out ranks above anything kept, and breeds and order survive rescaling |
| `Predictions.PredictionsEmpty` | backend/main.py:105-122 | the result is empty iff no dog class has a percentage above 1.0 |
| `Predictions.PredictionsLength` | backend/main.py:113-114 | the result holds min(5, candidates) entries |
| `Predictions.ScoresToJson` | backend/main.py:110 | one `{"breed", "confidence"}` object per entry, in order |
| `Predictions.ClassifyImage` | backend/main.py:131-159 | a non-image is 400 "File must be an image"; a failure while processing is 500 with its text; no dog is 500 "400: No dog detected in the image"; otherwise 200 with `{"results": ...}`; 400 happens iff the type is not an image |
| `ModelHandler.FormatBreedName` | backend/model_handler.py:60-62 | same length, no underscore, title-cased |
| `ModelHandler.FormatBreedNameAt` | backend/model_handler.py:62 | each character is the title-case rule applied to the name with spaces for underscores |
| `ModelHandler.FormatBreedNameIdempotent` | backend/model_handler.py:60-62 | formatting a formatted name changes nothing |
| `ModelHandler.DogBreedClassifier.constructor` | backend/model_handler.py:8-12 | the path is "model", then a load attempt decides model and class names |
| `ModelHandler.DogBreedClassifier.LoadModel` | backend/model_handler.py:14-34 | success stores model and names; any failure leaves no model and no names |
| `ModelHandler.DogBreedClassifier.Predict` | backend/model_handler.py:36-58 | no model gives the single "Model not loaded" entry; a raising model gives the single "Error during prediction" entry; otherwise one entry per decoded prediction, in order, name formatted, score unchanged |
| `BreedMix.TotalPercentage` | frontend/src/pages/BreedMixCalculator.tsx:50 | with every slider in its range 0..100, the total lies between 0 and 100 times the number of breeds |
| `BreedMix.OffTarget` | frontend/src/pages/BreedMixCalculator.tsx:51 | `Math.abs(total - 100) > 0.01` holds iff the total lies outside [99.99, 100.01] |
| `BreedMix.TotalAgrees` | frontend/src/pages/BreedMixCalculator.tsx:50 | the total reads only the percentages of the selected breeds |
| `BreedMix.TotalAppend` | frontend/src/pages/BreedMixCalculator.tsx:29-33 | selecting a breed with percentage v adds v to the total |
| `BreedMix.TotalWithout` | frontend/src/pages/BreedMixCalculator.tsx:24-28 | deselecting a breed subtracts its percentage from the total |
| `BreedMix.TotalUpdate` | frontend/src/pages/BreedMixCalculator.tsx:37-42 | moving one slider changes the total by the difference |
| `BreedMix.DefaultShareBreaksTotal` | frontend/src/pages/BreedMixCalculator.tsx:32 | after totalling 100, adding a breed at its default share leaves the total off target |
| `BreedMix.Payload` | frontend/src/pages/BreedMixCalculator.tsx:59-62 | the payload lists the breeds in selection order, each with its percentage |
| `BreedMix.PayloadIgnoresOthers` | frontend/src/pages/BreedMixCalculator.tsx:59-62 | a percentage stored for a breed outside the selection does not change the payload |
| `BreedMix.BreedMixCalculator.constructor` | frontend/src/pages/BreedMixCalculator.tsx:17-21 | empty selection and map, no result, not loading, no error |
| `BreedMix.BreedMixCalculator.HandleBreedSelect` | frontend/src/pages/BreedMixCalculator.tsx:23-35 | a selected breed leaves the list at its position and its key leaves the map; a new one is appended with 100/(n+1); the key set stays the selection |
| `BreedMix.BreedMixCalculator.HandlePercentageChange` | frontend/src/pages/BreedMixCalculator.tsx:37-42 | exactly one key is set; the invariant is kept for a selected breed |
| `BreedMix.BreedMixCalculator.BeginCalculate` | frontend/src/pages/BreedMixCalculator.tsx:44-62 | fewer than two breeds is reported first, then a total more than 0.01 from 100; either sends nothing; otherwise loading starts, the error clears and the payload is sent |
| `BreedMix.BreedMixCalculator.CompleteCalculate` | frontend/src/pages/BreedMixCalculator.tsx:63-69 | loading ends; a result is stored, or the error is the thrown message or "Failed to calculate breed mix" |
| `BreedMix.BreedMixCalculator.ResetCalculator` | frontend/src/pages/BreedMixCalculator.tsx:72-77 | selection, percentages, result and error are cleared |
| `BreedCompare.DifferencesOrderMatters` | frontend/src/pages/BreedComparison.tsx:53-57 | the templated differences depend on the order of selection: swapping two different breeds changes them |
| `BreedCompare.Compatibility` | frontend/src/pages/BreedComparison.tsx:58 | the floor of a draw in [0, 1) times 100: a whole number from 0 to 99 |
| `BreedCompare.CompatibilityOnto` | frontend/src/pages/BreedComparison.tsx:58 | every score from 0 to 99 can occur |
| `BreedCompare.CompatibilityMessage` | frontend/src/pages/BreedComparison.tsx:189-193 | "Excellent" iff at least 80, "Good" iff 60 to 79, "Moderate" iff below 60 |
| `BreedCompare.MessageMonotone` | frontend/src/pages/BreedComparison.tsx:189-193 | a higher score never gets a worse message |
| `BreedCompare.RingRotation` | frontend/src/pages/BreedComparison.tsx:182 | the ring turns by score/100 of a full turn, always less than 360 degrees |
| `BreedCompare.MockComparison` | frontend/src/pages/BreedComparison.tsx:45-59 | the comparison names the captured first and second breeds, the fixed similarities, the templated differences and a score in 0..99 |
| `BreedCompare.BreedComparison.constructor` | frontend/src/pages/BreedComparison.tsx:13-15 | nothing selected, no comparison, not loading |
| `BreedCompare.BreedComparison.HandleBreedSelect` | frontend/src/pages/BreedComparison.tsx:31-37 | a selected breed is filtered out; a new one is appended only below two; at most two, none twice |
| `BreedCompare.BreedComparison.CompareBreeds` | frontend/src/pages/BreedComparison.tsx:39-44 | a no-op unless exactly two are selected; then loading starts and the timer captures the pair in order |
| `BreedCompare.BreedComparison.ComparisonArrives` | frontend/src/pages/BreedComparison.tsx:44-62 | the captured pair's comparison is shown and loading ends, whatever is selected by then |
| `BreedCompare.BreedComparison.ResetComparison` | frontend/src/pages/BreedComparison.tsx:65-68 | selection and comparison cleared; loading and a pending timer untouched |
| `EndToEnd.Delivered` | frontend/src/pages/Home.tsx:22-31 | Home's interceptor passes errors through: a 2xx reply resolves with its body, any other rejects with status, detail and message |
| `EndToEnd.ResultsAccepted` | backend/main.py:155 | every non-empty result body the back end sends passes all the page's checks, breeds intact |
| `EndToEnd.ErrorDetailShown` | frontend/src/pages/Home.tsx:209-213 | a back-end detail sent with an error status other than 413 or 415 is what the page shows |
| `EndToEnd.EmptyDetailFallsBack` | frontend/src/pages/Home.tsx:209-211 | an empty back-end detail with an error status other than 413 or 415 is not shown; the transport's message, or else "Try again! ", is |
| `EndToEnd.Classify` | backend/main.py:131-159 | through both ends: a non-image shows "File must be an image"; a raised failure with non-empty text shows that text, and one with empty text shows the transport's message or "Try again! "; no dog shows "400: No dog detected in the image"; otherwise the page accepts the ranked predictions |

## Left out

- Network, file reading and rendering. The HTTP exchange is a parameter (`ApiClient`) or an outcome value (`Home.Outcome`, `BreedMix.MixOutcome`). The FileReader preview is a separate step (`PreviewLoaded`). JSX, CSS, animations and the console logging are not modelled.
- Randomness and timers. The dog fact and the result message picked at random are not modelled. The comparison's random draw is a parameter in [0, 1). The 1.5 s delay is the split between `CompareBreeds` and `ComparisonArrives`.
- Share, clipboard and report download on the classification page (browser I/O, locale date formatting, `toFixed`).
- Axios configuration: base URL, the 75-second timeout (its effect appears only as the `ECONNABORTED` code), credentials and headers.
- Inference, softmax, image decoding, model and label-file loading on the back end, CORS, `gc`, and logging. The probability vector, the class names, the decoded top three and the load outcome are inputs.
- The thin pages (dog detective, guess-the-breed, advanced analysis, random breed) and the static pages. Each only wraps one api call or shows fixed text. The guess page reads confidences on a 0..1 scale, while the classification page reads 0..100.
- Concurrency: nothing orders replies. The model lets any reply land at any time, as the code does.
- Floating point: confidences and percentages are reals. So the normalised values add up to exactly 100, and the mix total is exact. The source's floats may differ in the last bits.
- Strings are ASCII-only: `toLowerCase` and `str.title` change ASCII letters only, and non-ASCII letters count as non-letters.
- Home.BreedInfoIn: the lookup is a map, so keys inherited by JavaScript objects (such as `constructor`) are not modelled.
- Home.GetBreedInfo: "every breed gets the default entry" holds for the map; in JavaScript a breed such as "Constructor" lower-cases to an inherited key and gets that instead.
- Home.Accept: the text of the `TypeError` for a `null` element is the one V8-based browsers give; other engines word it differently, and the model states only that one text.
- ApiClient.Normalize: `data.detail` is modelled as an optional string. A truthy non-string detail, such as FastAPI's 422 list of errors, would become its JavaScript string conversion ("[object Object]" for each object), and a `null` `data` would make the interceptor itself throw a `TypeError`; neither is modelled.
- Text.Join: has no contract of its own; `Home.TopBreedNames` states what it yields for the at most three names the page joins.
- Predictions.ClassifyImage: the no-dog text `"400: No dog detected in the image"` assumes a Starlette release whose `HTTPException` defines `__str__` as status, colon, detail; the version is not pinned, and with an older one `str(e)` differs (for an empty text the page shows what `EndToEnd.EmptyDetailFallsBack` states).
- Home.FailureReason: the detail of a server error is read as a string. A non-string detail, which the page would show converted to text, is not modelled.
- Predictions.ClassifyImage: requires at least 269 probabilities and class names, because the network always produces the 1000 ImageNet classes. A shorter vector, which would raise and become a 500, is not modelled.
- Predictions.GetPredictions: has the same requirement of at least 269 probabilities and class names, for the same reason.
- Predictions.SortDesc: sorted and a permutation, but the stability of Python's sort for equal confidences is not stated, though the insertion order used does keep it.
- BreedMix.BreedMixCalculator.BeginCalculate: the total is summed over the selection rather than over `Object.values` of the map. Under the class invariant the keys are exactly the selected breeds, inserted in selection order, so the two sums agree.
- BreedMix.BreedMixCalculator.HandlePercentageChange: the invariant is proved only for a selected breed; the page's sliders exist only for selected breeds.
- The `/mix`, `/analyze` and `/compare` endpoints themselves are not part of the back end given; only the requests the front end builds are modelled.

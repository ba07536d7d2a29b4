# CarMommy decision procedures in Dafny

CarMommy is a car-buying assistant. A user searches dealer listings, pays a
small Solana devnet fee, and an AI voice agent then calls the dealer. The
backend is mostly glue between a managed store and outside services. This
project models the decision procedures inside that glue and proves what
they promise:

- **Payment verification** (`verifyPayment`): a fixed chain of early-exit
  checks on a submitted transaction signature, a scan of the transaction's
  balances for the merchant's credit of 0.001 SOL (1 000 000 lamports,
  ±1000), and a write to the payments ledger only on success.
  `SolanaPayment.Decide` states the whole decision as a function of the
  inputs; `SolanaPayment.VerifyPayment` is the step-by-step handler, proved
  equal to it.
- **Payments ledger** (`checkPaymentExists`, `recordPayment`,
  `getMerchantAddress`): a class holding the table as a sequence. Its
  invariant is that no signature is recorded twice.
- **Webhook and quote routes**: classification of a finished call as
  failed, quoted or completed; the guard on the AI-extracted price; the
  failure note; validation of the `/quotes` and competitive-deals bodies;
  and the plain-text deals answer with its "no offer avaliables" sentinel.
  Store mutations and queries are recorded outputs. The generative-text reply
  and the store's answers are inputs.
- **Listing transform** (`getCarfax`): drop zero-priced listings and
  reshape the rest, keeping their order.
- **Search form** (`validateForm`, the Search button, the "Good Price" badge).
- **Voice-cloning panel**: the `m:ss` duration display and its read-back,
  the upload guards, and the state resets of the start, clear and upload
  handlers.

One module per source file, plus three helper modules: `Wrappers` (Option and
Result), `Strings` (the JavaScript string built-ins the code uses, on
`seq<char>`), and `Js` (JSON values, truthiness, `String(x)` and `Number(x)`, and when those two throw).

Four facts about the code shape the model:

- When no merchant address is configured, or it is empty, the address
  falls back to the 32-character string of `'1'`s (convex/solana.ts:13-16).
- When the amount does not match, the reported amount is the change of the
  *last* positive merchant credit seen by the scan, or 0 when there is none.
  Earlier merchant credits in the same transaction are not reported
  (convex/solanaPayment.ts:115-144).
- The double-spend guard holds only for calls made one after another. The
  handler's lookup (convex/solanaPayment.ts:86) and the insert's own lookup
  (convex/solana.ts:67) are separate steps, so two concurrent calls can
  interleave between them.
- `/quotes` writes the status `confirmed_quote` (convex/http.ts:125), and the
  webhook writes `quoted` (convex/http.ts:257). The status union in
  convex/schema.ts:22-26 lists neither, so `Http.CallStatus` has all five
  values.

## Model

| member | source | states |
|---|---|---|
| Ledger.MerchantAddress | convex/solana.ts:7-18 | the configured address when set and non-empty, otherwise the 32-character string of '1's |
| Ledger.Lookup | convex/solana.ts:38-41 | the index lookup finds nothing iff no record has the signature; otherwise it finds the earliest record that has it |
| Ledger.LookupUnique | convex/solana.ts:37-51 | in a table with unique signatures, looking up a record's signature returns exactly that record |
| Ledger.LookupAppend | convex/solana.ts:76-80 | after appending a record, earlier matches win; the new record is found only for its own signature when nothing matched before |
| Ledger.LookupAfterRecord | convex/solana.ts:66-80 | after `recordPayment(rec)` its signature is found (as `rec` if it was new), and every other signature is found as before |
| Ledger.AfterRecordKeepsUnique | convex/solana.ts:66-80 | a `recordPayment` call keeps signatures pairwise distinct |
| Ledger.ReplayKeepsUnique | convex/solana.ts:58-82 | over any sequence of sequential `recordPayment` calls the signatures stay distinct; every recorded signature is found afterwards; old records are found unchanged |
| Ledger.PaymentTable.CheckPaymentExists | convex/solana.ts:23-53 | null iff no stored record has the signature; otherwise a stored record with that signature |
| Ledger.PaymentTable.RecordPayment | convex/solana.ts:58-82 | a duplicate signature fails with "Payment already recorded" and leaves the table unchanged; a fresh one appends exactly the given record and leaves the others unchanged; uniqueness is preserved |
| SolanaPayment.FirstPayment | convex/solanaPayment.ts:118-137 | the first account that is the merchant with a positive change inside [999000, 1001000], and no earlier account qualifies; none iff no account qualifies |
| SolanaPayment.LastCredit | convex/solanaPayment.ts:114-127 | the change of the last positive merchant credit, which is positive, or 0 iff there is no such credit |
| SolanaPayment.ScanBalances | convex/solanaPayment.ts:114-137 | the loop with `break` finds a payment iff some account carries one; it stops at the first, whose change it returns; otherwise it returns the last credit's change or 0 |
| SolanaPayment.DecideIsFirstFailingCheck | convex/solanaPayment.ts:33-165 | the verdict is valid iff every check passes; otherwise it is the rejection of the first failing check in the order signature, address, RPC call, found, metadata, execution error, already used, amount |
| SolanaPayment.DecideAtFirstFailing | convex/solanaPayment.ts:35-158 | when the check at position k is the first to fail, the verdict is that check's rejection; when none fails, the verdict is valid |
| SolanaPayment.ValidVerdict | convex/solanaPayment.ts:139-158 | a valid verdict implies a long enough signature, a parsed address, a fetched transaction without error, an unused signature, and a merchant credit in the window equal to the reported amount |
| SolanaPayment.ShortSignatureRejected | convex/solanaPayment.ts:35-40 | a signature shorter than 64 UTF-16 code units (the empty one included) gets the format message, whatever the RPC and the ledger hold |
| SolanaPayment.SignatureFormatCountsCodeUnits | convex/solanaPayment.ts:35 | the length check counts UTF-16 code units: 64 or more characters always pass it, and so do 32 characters outside the Basic Multilingual Plane; a signature without such characters passes iff it has at least 64 characters |
| SolanaPayment.SecondAttemptRejected | convex/solanaPayment.ts:86-95 | an attempt that would be valid is rejected as "already been used" once the ledger holds its signature |
| SolanaPayment.VerifyPayment | convex/solanaPayment.ts:22-167 | the verdict equals the decision function, with the ledger consulted for the signature; a valid verdict appends exactly one record (signature, matching change, merchant address); every invalid verdict writes nothing |
| SolanaPayment.VerifyTwice | convex/solanaPayment.ts:85-158 | two sequential verifications of one transaction: if the first is valid, the second is rejected as reused, and the table grew by exactly one record |
| Http.ClassifyCall | convex/http.ts:246-258 | failed iff the call did not succeed; quoted iff it succeeded and the lowercased summary contains "quote", "price" or "offer"; completed otherwise |
| Http.ClassifyIgnoresCase | convex/http.ts:251-256 | lower-casing the summary first does not change the status |
| Http.AcceptedPrice | convex/http.ts:225-244 | a price is taken only when the parsed reply's `final_price` is a non-zero number; a failed call or parse, a null reply, or a missing, zero or non-numeric price gives none |
| Http.FailureNote | convex/http.ts:283-288 | the note is "Call initiation failed: " followed by the reason, or by "undefined" when there is none |
| Http.HandlePostCallTranscription | convex/http.ts:207-270 | no mutation when the summary is missing or empty; otherwise one status update with the classification, the summary, the success flag and the accepted price |
| Http.HandleCallInitiationFailure | convex/http.ts:272-291 | one update: status failed, call_successful false, the failure note, no price |
| Http.HandlePostCall | convex/http.ts:161-192 | only transcription and initiation-failure events issue a mutation; a transcription with a non-empty summary issues exactly the update with the classification, the summary, the success flag and the accepted price; an initiation failure issues exactly the failed update with the failure note; the answer is 200 unless an exception escapes (unreadable body, missing data, a failing mutation), and then it is 500 |
| Http.QuoteRequestError | convex/http.ts:97-120 | a falsy vin is reported first; then a null or undefined price; 0 is an accepted price |
| Http.QuoteMutation | convex/http.ts:122-127 | the confirmed_quote update for `String(vin)` and `Number(finalPrice)` exists iff neither conversion throws, that is iff neither value is, or holds in an array, an object with its own "toString" |
| Http.HandleQuotes | convex/http.ts:86-159 | 400 exactly on a validation error, with no mutation; otherwise 500 with no mutation when a conversion throws, and else exactly that update, answered 200 with both fields echoed, or 500 when the store throws; a non-JSON or null body gives 500 |
| Http.OwnToStringBlocksStoreCalls | convex/http.ts:49-50 | an object with its own "toString", sent itself or inside an array as vin, price, make or model, stops the query here and the mutation at convex/http.ts:124-126 |
| Http.QuotePriceAsText | convex/http.ts:122-127 | a price sent as decimal text asks for the same update as the number itself, whatever the vin |
| Http.DealsTextSentinelIff | convex/http.ts:57-64 | the answer is the sentinel "no offer avaliables" iff there are no deals |
| Http.DealsTextSnoc | convex/http.ts:58-61 | the answer lists the deals in order: one more deal appends ", " and `dealer_name: confirmed_price` |
| Http.DealsQuery | convex/http.ts:46-52 | the query exists iff `String(make)` and `String(model)` both return; string values are passed unchanged |
| Http.HandleCompetitiveDeals | convex/http.ts:18-84 | 400 iff make or model is falsy, and then no query runs; otherwise 500 with no query when a conversion throws, and else exactly that query, answered 200 with the deals text, or 500 when the query throws; a non-JSON or null body gives 500 |
| Carfax.Reshape | convex/carfax.ts:65-83 | price, listing URL and colour are renamed; the other scalars are copied; images are the large images when present, else empty; with no dealer, every dealer field is undefined |
| Carfax.FilterListings | convex/carfax.ts:63-83 | the output length is the number of listings with a non-zero price, and no output has price 0 |
| Carfax.FilterListingsKeepsOrder | convex/carfax.ts:63-83 | the k-th output is the reshaped listing at the k-th priced position; positions increase strictly; every priced listing is kept |
| Carfax.FilterListingsAppend | convex/carfax.ts:63-64 | the transform of a concatenation is the concatenation of the transforms |
| Carfax.ZeroPricedDropped | convex/carfax.ts:64 | a zero-priced listing contributes nothing, wherever it sits |
| SearchForm.ErrorsFor | src/pages/index.tsx:45-66 | each field's message depends on that field alone; an empty zip and a malformed zip get different messages; no message is set iff make and model are non-empty and the zip is exactly five ASCII digits |
| SearchForm.EnabledSearchFailsOnlyOnZip | src/pages/index.tsx:226-228 | when the Search button is enabled, validation fails only on the zip format, and then that is the only message |
| SearchForm.GoodPriceOfListing | src/pages/index.tsx:276 | the badge shows on a reshaped listing iff its MSRP is positive and its current price is below it |
| SearchForm.SearchPage.constructor | src/pages/index.tsx:31-41 | the form starts empty, with radius 50, not loading, and no errors |
| SearchForm.SearchPage.ValidateForm | src/pages/index.tsx:45-66 | stores the errors for the current values; returns true iff none is set; the form values are unchanged |
| SearchForm.SearchPage.HandleSearch | src/pages/index.tsx:68-96 | requests listings with the form values iff validation passes, and clears the loading flag after the request settles; a failed validation leaves the loading flag alone |
| VoiceCloning.FormatDurationRoundTrip | src/_components/VoiceCloning.tsx:178-182 | the display reads back: the part after ':' is exactly two digits, and the minutes m and seconds s read from it give m*60+s = n with s < 60 |
| VoiceCloning.TwoDigitSeconds | src/_components/VoiceCloning.tsx:181 | seconds below 60, padded with '0', are exactly two digits that read back as the same value |
| VoiceCloning.RecordingHint | src/_components/VoiceCloning.tsx:240-242 | below 10 seconds the hint reads back as the prefix, a run of digits and the suffix, and the digits' value plus the duration is 10; from 10 on, it says the minimum is reached |
| VoiceCloning.UploadRefusal | src/_components/VoiceCloning.tsx:96-117 | the guards refuse first on a blank name, then on a missing recording, then on a recording shorter than 10 seconds; none refuses iff all three hold |
| VoiceCloning.CanUploadIffNoRefusal | src/_components/VoiceCloning.tsx:184-185 | the upload button is enabled iff no upload is running and no guard refuses; a name made only of white space is refused |
| VoiceCloning.VoicePanel.constructor | src/_components/VoiceCloning.tsx:20-23 | empty name, duration 0, no recording, not uploading, no success banner |
| VoiceCloning.VoicePanel.HandleStartRecording | src/_components/VoiceCloning.tsx:80-87 | the duration becomes 0 and the success banner is cleared; nothing else changes |
| VoiceCloning.VoicePanel.HandleClear | src/_components/VoiceCloning.tsx:172-176 | as a restart, and the recording is dropped |
| VoiceCloning.VoicePanel.HandleUpload | src/_components/VoiceCloning.tsx:96-170 | a refusal changes no state (so the upload flag keeps its value); otherwise the upload uses the current name and ends with the flag lowered; only a created voice sets the banner and resets name, duration and recording |

## Left out

- Network and vendor calls are inputs, not modelled: the Solana RPC `getTransaction`, the Carfax search request, the generative-text call, the voice-vendor calls, and wallet signing.
- Public-key parsing and `PublicKey.equals` are foreign calls. The parse is a boolean input, and account keys are compared as address strings.
- SolanaPayment.VerifyPayment: amounts are integer lamports. The SOL conversion (`/ LAMPORTS_PER_SOL`) is floating point, so the reported and recorded amounts are in lamports rather than SOL.
- SolanaPayment.VerifyPayment: only an exception from the RPC call is modelled. `checkPaymentExists` and `recordPayment` throwing inside the handler are not. `recordPayment` cannot meet a duplicate under sequential use anyway.
- SolanaPayment.VerifyPayment: a legacy and a versioned transaction are not told apart; both are an ordered list of account addresses.
- Ledger.PaymentTable.RecordPayment: the returned id is the record's position, not a store document id. The `_id` and `_creationTime` fields are not modelled.
- Concurrency is not modelled. The check-then-insert race between `verifyPayment` and `recordPayment` under concurrent calls is outside this sequential model.
- `requestCall` and the call-record mutations and queries (`updateCallStatus`, `updateCallStatusByVin`, `getCompetitiveDeals`) are not part of this model. The routes' calls to them are recorded outputs, and their answers are inputs.
- The store schema is not part of this model. Its status union lacks `quoted` and `confirmed_quote`, which the routes write. `Http.CallStatus` has all five values.
- Http.HandleQuotes: `Number(x)` is modelled only for blank strings and optionally signed decimal integers, and the model keeps every digit. In JavaScript, `Number` rounds a digit text above 2^53 to the nearest double (`"9007199254740993"` gives 9007199254740992) and turns one beyond about 1.8e308 into `Infinity`; the model's confirmed price then differs. Decimal fractions, exponents, hexadecimal, `Infinity` and fractional JSON numbers are not modelled; the model treats those strings as NaN.
- Http.AcceptedPrice: JSON numbers are integers, so a fractional `final_price` is not modelled.
- Carfax.Reshape: prices, MSRP and year are integers. The listing's `images.large || []` is modelled as its optional array.
- Js.ToJsString: an integer is always rendered with all its digits. `String(n)` switches to exponent form from 1e21 on, and `JSON.parse` rounds integers above 2^53 to the nearest double. Both are outside this model. They affect `String(vin)` (convex/http.ts:124), `String(make)` and `String(model)` (convex/http.ts:49-50), and the prices in the deals text (convex/http.ts:60).
- `Strings.Lower` lowers ASCII letters only. Full Unicode case mapping of `toLowerCase` is not modelled.
- The webhook payload is modelled by its typed fields. A `conversation_id` of another type, or a non-boolean `call_successful`, is not modelled.
- SearchForm.SearchPage.HandleSearch: the fetched listings and their sort by discount percentage are not modelled, because the sort key is floating point. The loading flag is modelled only at its final value.
- VoiceCloning.VoicePanel.HandleUpload: only the state after the asynchronous part has ended is stated. The interval with `isUploading` raised is not observed, nor are the base64 conversion and the toasts.
- The recording timer, the audio-metadata update of the duration, the progress percentage (floating point), the media recorder, rendering and the toasts are browser machinery and are not modelled.

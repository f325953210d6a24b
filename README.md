# QR payload preparation and the capture state machine

A Dafny model of the two pieces of sequential logic in the second sample application of
`android_scanners`, an Android app that embeds the ZXing barcode library:

- **`QRCodeEncoder`** (module `QRCodeEncoding`, file `qr_code_encoder.dfy`). It turns what the
  caller put into a `QREncode.Builder` into the text to encode. It passes some content types
  through unchanged. It adds `mailto:`, `tel:` or `sms:` in front of the contents of others. An
  address book is read from a contact URI, or else from the builder's bundle. A location needs
  both coordinates. The encoder then picks a character-set hint: `UTF-8` when a character lies
  above 0xFF, none otherwise. Finally it rasterises the symbol's bit matrix into a row-major
  `int[]` of ARGB pixels: the colour for a set bit and `WHITE` for a clear one. A colour of 0
  first becomes `BLACK`.
- **`ScannerViewHandler`** (module `Capture`, file `scanner_view_handler.dfy`). This is the
  capture state machine on the UI thread. Its states are `PREVIEW`, `SUCCESS` and `DONE`. It
  asks the camera for preview frames and redraws the viewfinder. It hands decoded results to
  the scanner view. On quit, it removes pending decode outcomes from its message queue.

`wrappers.dfy` holds `Option`, which stands for Java references that may be null.

The builder, the encoder and the handler are classes whose methods change fields in place. The
encoder's loops (`GetAllBundleValues`, `GuessAppropriateEncoding`, `RenderPixels`, `FillRow`)
are module-level methods. A function states what each of them should do. For the encoder, that
function is `QRCodeContents` for the builder's new encode contents, `Rasterize` for the pixel buffer and `BitmapOf` for the whole
`encodeAsBitmap`. For the handler, it is a step function over a `Snapshot` (state, pending
queue, effects). The effects on the camera, the view and the decode thread are ghost records:
preview starts and stops, frame requests, viewfinder draws, results delivered and QUIT messages
sent. The lemmas state the promised properties about these functions.

Foreign code is passed in as values of the `Collaborators` datatype:

- `ParserUriToVCard.parserUri` and its key arrays;
- `VCardContactEncoder` and `MECARDContactEncoder`;
- `MultiFormatWriter.encode`, which returns a rectangular bit matrix or one of its two
  exceptions.

`QREncode.Builder` is not part of this model beyond the fields the encoder reads and writes
(class `Builder`). An Android `Bundle` is a map whose values may be null: a key mapped to null
(`NullValue`) counts towards `isEmpty`, and every getter reads it as absent.

`handleMessage` has no `DONE` check. `quitSynchronously` does the same work again when it is
called twice. The model follows the code. A decode outcome that is already queued at quit is
removed (`QuitPurgesDecodeOutcomes`, `DrainAfterQuitIsSilent`). A success message
posted after the quit is still delivered (`LateSuccessAfterQuitIsDelivered`).
Quitting twice calls `stopPreview` twice and sends QUIT twice (`QuitTwice`).

## Model

| member | source | states |
|---|---|---|
| `QRCodeEncoding.QRCodeEncoder.constructor` | sampleTwo/app/src/main/java/com/tj/zxingscanner/zxing/encode/QRCodeEncoder.java:50-66 | a null or QR_CODE format becomes QR_CODE and the encode contents are computed; any other format leaves format and contents untouched; afterwards the format is never null |
| `QRCodeEncoding.QRCodeEncoder.EncodeContentsFromZXing` | sampleTwo/app/src/main/java/com/tj/zxingscanner/zxing/encode/QRCodeEncoder.java:60-66 | only a null or QR_CODE format sets QR_CODE and recomputes the contents; otherwise both builders are unchanged |
| `QRCodeEncoding.QRCodeEncoder.EncodeQRCodeContents` | sampleTwo/app/src/main/java/com/tj/zxingscanner/zxing/encode/QRCodeEncoder.java:68-150 | the type switch leaves the encode contents equal to `QRCodeContents` of the payload and the previous contents, and changes neither format nor colour |
| `QRCodeEncoding.PassThroughKeepsContents` | sampleTwo/app/src/main/java/com/tj/zxingscanner/zxing/encode/QRCodeEncoder.java:70-96 | WIFI, CALENDAR, ISBN, PRODUCT, VIN, URI and TEXT encode the raw contents unchanged |
| `QRCodeEncoding.SchemeThenContents` | sampleTwo/app/src/main/java/com/tj/zxingscanner/zxing/encode/QRCodeEncoder.java:98-108 | EMAIL_ADDRESS, TEL and SMS give exactly `mailto:`, `tel:`, `sms:` followed by the raw contents as Java prints them |
| `QRCodeEncoding.SchemedContentsInjective` | sampleTwo/app/src/main/java/com/tj/zxingscanner/zxing/encode/QRCodeEncoder.java:98-108 | removing the scheme recovers the request: equal results of non-null schemed requests mean equal type and contents |
| `QRCodeEncoding.NullContentsPrintAsNull` | sampleTwo/app/src/main/java/com/tj/zxingscanner/zxing/encode/QRCodeEncoder.java:98-108 | Java string concatenation makes null contents encode like the literal text `null` |
| `QRCodeEncoding.AddressBookFallsBackToBuilderBundle` | sampleTwo/app/src/main/java/com/tj/zxingscanner/zxing/encode/QRCodeEncoder.java:110-117 | the contact bundle is the parsed URI's when that is non-null and non-empty, and the builder's bundle otherwise |
| `QRCodeEncoding.AddressBookNeedsAnEncodedField` | sampleTwo/app/src/main/java/com/tj/zxingscanner/zxing/encode/QRCodeEncoder.java:118-137 | with no bundle nothing changes; otherwise `encoded[0]` is written exactly when `encoded[1]` is non-empty |
| `QRCodeEncoding.GeoNeedsBothCoordinates` | sampleTwo/app/src/main/java/com/tj/zxingscanner/zxing/encode/QRCodeEncoder.java:139-147 | the contents change only when a bundle holds both LAT and LONG different from `Float.MAX_VALUE`, and then become `geo:LAT,LONG` |
| `QRCodeEncoding.AllBundleValues` | sampleTwo/app/src/main/java/com/tj/zxingscanner/zxing/encode/QRCodeEncoder.java:152-159 | one entry per key in key order; a missing key or a key mapped to null gives null, and any other key a value |
| `QRCodeEncoding.GetAllBundleValues` | sampleTwo/app/src/main/java/com/tj/zxingscanner/zxing/encode/QRCodeEncoder.java:152-159 | the appending loop builds exactly `AllBundleValues` of the bundle and keys |
| `QRCodeEncoding.EffectiveColor` | sampleTwo/app/src/main/java/com/tj/zxingscanner/zxing/encode/QRCodeEncoder.java:162-163 | the colour used is never 0, and a non-zero colour is kept |
| `QRCodeEncoding.QRCodeEncoder.EncodeAsBitmap` | sampleTwo/app/src/main/java/com/tj/zxingscanner/zxing/encode/QRCodeEncoder.java:161-195 | the colour is defaulted to BLACK, the encode contents and format are kept, and the outcome is `BitmapOf` the contents, format and colour |
| `QRCodeEncoding.NullContentsGiveNoBitmap` | sampleTwo/app/src/main/java/com/tj/zxingscanner/zxing/encode/QRCodeEncoder.java:164-167 | null encode contents return null whatever the writer would do |
| `QRCodeEncoding.BitmapPixelsFollowMatrix` | sampleTwo/app/src/main/java/com/tj/zxingscanner/zxing/encode/QRCodeEncoder.java:174-190 | a bitmap has the matrix's size and `width*height` pixels; pixel `y*width+x` is the non-zero colour for a set bit and WHITE for a clear one |
| `QRCodeEncoding.RenderPixels` | sampleTwo/app/src/main/java/com/tj/zxingscanner/zxing/encode/QRCodeEncoder.java:182-190 | the nested loops fill a new buffer of length `width*height` equal to `Rasterize` of the matrix, writing every index exactly once and in increasing order |
| `QRCodeEncoding.FillRow` | sampleTwo/app/src/main/java/com/tj/zxingscanner/zxing/encode/QRCodeEncoder.java:186-189 | the inner loop extends the rasterised prefix by row y, writing exactly the indices `y*width` to `(y+1)*width - 1` and leaving the earlier and the later rows as they were |
| `QRCodeEncoding.RasterizeAt` | sampleTwo/app/src/main/java/com/tj/zxingscanner/zxing/encode/QRCodeEncoder.java:185-189 | in the rasterised buffer, index `y*width+x` is in bounds and holds the pixel of bit (x, y) |
| `QRCodeEncoding.RasterizeCells` | sampleTwo/app/src/main/java/com/tj/zxingscanner/zxing/encode/QRCodeEncoder.java:184-189 | the rasterised buffer has `height*width` pixels and each bit's pixel sits at its cell index |
| `QRCodeEncoding.RasterizeLength` | sampleTwo/app/src/main/java/com/tj/zxingscanner/zxing/encode/QRCodeEncoder.java:184 | the rasterised buffer has exactly `height*width` pixels |
| `QRCodeEncoding.GuessAppropriateEncoding` | sampleTwo/app/src/main/java/com/tj/zxingscanner/zxing/encode/QRCodeEncoder.java:197-205 | the scan returns `UTF-8` if and only if some character exceeds 0xFF, and null if and only if none does |
| `Capture.ScannerViewHandler.constructor` | sampleTwo/app/src/main/java/com/tj/zxingscanner/zxing/ScannerViewHandler.java:53-69 | the new handler is in the `Started` snapshot |
| `Capture.Started` | sampleTwo/app/src/main/java/com/tj/zxingscanner/zxing/ScannerViewHandler.java:60-68 | after start-up the state is PREVIEW, the queue is empty, the thread and the preview have started once, and exactly one frame request and one viewfinder draw were issued |
| `Capture.RestartStep` | sampleTwo/app/src/main/java/com/tj/zxingscanner/zxing/ScannerViewHandler.java:120-126 | in SUCCESS: PREVIEW with one more frame request and one more draw; in PREVIEW or DONE nothing changes |
| `Capture.ScannerViewHandler.RestartPreviewAndDecode` | sampleTwo/app/src/main/java/com/tj/zxingscanner/zxing/ScannerViewHandler.java:120-126 | the handler's new snapshot is `RestartStep` of the old one |
| `Capture.HandleStep` | sampleTwo/app/src/main/java/com/tj/zxingscanner/zxing/ScannerViewHandler.java:71-103 | DECODE_SUCCEEDED: SUCCESS, one delivery with the message's result and image, no frame request; DECODE_FAILED: PREVIEW, one frame request; RESTART_PREVIEW: `RestartStep`; RETURN_SCAN_RESULT and LAUNCH_PRODUCT_QUERY: no change; never touches the queue or the preview |
| `Capture.ScannerViewHandler.HandleMessage` | sampleTwo/app/src/main/java/com/tj/zxingscanner/zxing/ScannerViewHandler.java:71-103 | the handler's new snapshot is `HandleStep` of the old one and the message |
| `Capture.ScannerViewHandler.QuitSynchronously` | sampleTwo/app/src/main/java/com/tj/zxingscanner/zxing/ScannerViewHandler.java:105-118 | the handler's new snapshot is `QuitStep` of the old one: DONE, preview stopped, QUIT sent, decode outcomes removed |
| `Capture.RemoveMessages` | sampleTwo/app/src/main/java/com/tj/zxingscanner/zxing/ScannerViewHandler.java:116-117 | no message of the removed kind remains; every other message keeps its multiplicity and the relative order is kept |
| `Capture.QuitPurgesDecodeOutcomes` | sampleTwo/app/src/main/java/com/tj/zxingscanner/zxing/ScannerViewHandler.java:105-118 | after a quit no DECODE_SUCCEEDED or DECODE_FAILED is pending; the other messages remain, in their order |
| `Capture.QuitTwice` | sampleTwo/app/src/main/java/com/tj/zxingscanner/zxing/ScannerViewHandler.java:105-118 | a second quit leaves state and queue as the first left them but calls `stopPreview` and sends QUIT a second time |
| `Capture.DrainDoneIsSilent` | sampleTwo/app/src/main/java/com/tj/zxingscanner/zxing/ScannerViewHandler.java:73-102 | in DONE, handling pending messages none of which is a decode outcome changes nothing but the queue |
| `Capture.DrainAfterQuitIsSilent` | sampleTwo/app/src/main/java/com/tj/zxingscanner/zxing/ScannerViewHandler.java:105-118 | handling everything pending at quit delivers no result and issues no frame request: the purge suppresses queued results |
| `Capture.LateSuccessAfterQuitIsDelivered` | sampleTwo/app/src/main/java/com/tj/zxingscanner/zxing/ScannerViewHandler.java:77-92 | a success message handled after a quit still sets SUCCESS and delivers its result, since nothing checks DONE |
| `Capture.RestartAfterQuitIsIgnored` | sampleTwo/app/src/main/java/com/tj/zxingscanner/zxing/ScannerViewHandler.java:105-126 | after a quit, RESTART_PREVIEW issues no frame request and changes nothing, because the state is not SUCCESS |
| `Capture.RunDeliversEachSuccess` | sampleTwo/app/src/main/java/com/tj/zxingscanner/zxing/ScannerViewHandler.java:77-93 | over any message sequence the deliveries are exactly one per DECODE_SUCCEEDED, in order, with its own result and image |
| `Capture.RunFrameRequestsBounded` | sampleTwo/app/src/main/java/com/tj/zxingscanner/zxing/ScannerViewHandler.java:71-103 | every DECODE_FAILED issues a frame request, no DECODE_SUCCEEDED does, and no message issues more than one |
| `Capture.RetryAfterFailures` | sampleTwo/app/src/main/java/com/tj/zxingscanner/zxing/ScannerViewHandler.java:94-97 | n failures in a row issue exactly n frame requests, deliver nothing and leave the handler in PREVIEW |
| `Capture.FailuresThenSuccessDeliverOnce` | sampleTwo/app/src/main/java/com/tj/zxingscanner/zxing/ScannerViewHandler.java:77-97 | any number of failures followed by one success deliver exactly that success's result, once |
| `Capture.SuccessThenRestart` | sampleTwo/app/src/main/java/com/tj/zxingscanner/zxing/ScannerViewHandler.java:74-123 | from a state other than SUCCESS, RESTART_PREVIEW, DECODE_SUCCEEDED, RESTART_PREVIEW issue exactly one new frame request and one draw and end in PREVIEW |

## Left out

- Camera hardware, bitmap creation and drawing are left out. `CameraManager` calls, `Bitmap.createBitmap`/`setPixels` and `scannerView.drawViewfinder`/`handleDecode` are recorded as effects or returned as data, not performed.
- `DecodeThread` is left out: its start, the QUIT message it receives, the `join(500L)` timeout and the interrupt handling are concurrency and thread lifecycle. They appear only as the `threadStarted` flag and the `quitsSent` counter.
- Messages reach the handler's queue through `Post` and leave it through `DispatchNext`. These stand for the Android `Handler`/`Looper` machinery, which is not part of this model.
- Floats are left out. A bundle float is opaque: its bit pattern decides "present", and the text `Float.toString` gives is stored with it. The `scaleFactor` read from a success message is dropped.
- `BitmapFactory.decodeByteArray` and `Bitmap.copy` are foreign. The barcode handed to the view is the message's compressed image bytes. A failed decode, which would make `copy` throw, is not modelled.
- `ParserUriToVCard`, `VCardContactEncoder`, `MECARDContactEncoder` and `MultiFormatWriter` are not part of this model. They are functions given as `Collaborators`, as are the contact key arrays and `URL_KEY`/`NOTE_KEY`. The Android context passed to the URI parser is dropped.
- A null parsed-result type would make the switch throw; the model's type has no null.
- `getContext` is a plain accessor and is not modelled.
- Java `char` is a UTF-16 unit and Dafny `char` is a Unicode scalar value. A character above 0xFFFF is one Dafny character but two Java units, and each of those units is above 0xFF too. So `GuessAppropriateEncoding` gives the same answer either way.
- `QRCodeEncoding.QRCodeEncoder.EncodeAsBitmap`: when `width*height` does not fit an `int`, Java throws while allocating or filling the buffer. The model gives `Thrown(PixelCountOverflow)` and does not say which exception it would be.

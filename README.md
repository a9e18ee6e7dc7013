# Collage: selection state and picker delivery

This project models the logic under the Collage app's two screens.

- **The main screen** (`MainViewController`) holds the ordered list of selected photos. The list starts empty. The clear action replaces it with the empty list. Each image that the picker sends is appended at the end. Every change is published. On each publication `updateUI` derives four outputs from the photo count `n`:
  - save is enabled when `n > 0 && n % 2 == 0`;
  - clear is enabled when `n > 0`;
  - add is enabled when `n < 6`;
  - the title is `"<n> photos"` when `n > 0`, and `"Collage"` otherwise.

  The same publication also renders the preview collage.
- **The picker screen** (`PhotosViewController`) handles each completed full-size image request. A result with no image or no info is ignored. A result whose info marks it as degraded (a thumbnail) is also ignored. Any other result is sent on the selection subject, and `selectedPhotosCount` goes up by one. When the screen disappears, the subject completes.

Modules:

- `CollageUi` (`ui.dfy`): the four `updateUI` rules as functions of `n`. It includes the decimal rendering of `n` in the title and a parser that reads the count back from the title.
- `SelectionStore` (`selection.dfy`):
  - The class `MainScreen` has the selection field, the fields that `updateUI` writes, and the preview.
  - Its methods `Clear` and `Append` change the selection and then republish.
  - A ghost history of changes ties the selection to a pure replay function, `Apply`.
- `PhotoPicker` (`picker.dfy`):
  - `Accept` is the delivery filter.
  - `Accepted` is the filter applied to a run of deliveries.
  - The class `PhotosScreen` has the count, the images sent to subscribers and the completion flag.
- `AddFlow` (`add_flow.dfy`): the add action binds a fresh picker's stream to the selection. While the stream is open, the selection is always its contents at binding time followed by every image the picker sent, in order.

The picker's subject is a pass-through subject. After it completes, a send is dropped. If a request still completes after that while the picker screen is alive, so that the handler gets past its `guard let self = self`, the count increment on the next source line still runs. So the model keeps these facts apart:
- the count always equals the number of accepted results;
- the images sent to subscribers are a prefix of the accepted results;
- the two are equal only while the subject has not completed.

Two behaviours that are easy to misread, kept here as the code has them:
- Nothing caps the selection at six photos. The add button is disabled from six on. But a picker that is already open goes on sending, and `Append` has no capacity or duplicate check.
- The save action only reads the preview image. It neither saves nor clears the selection (`starter/Collage/MainViewController.swift:95-98`).

## Model

| member | source | states |
|---|---|---|
| `CollageUi.NatToString` | starter/Collage/MainViewController.swift:86 | the count in the title is written as a non-empty string of decimal digits with no leading zero |
| `CollageUi.ParseNatToString` | starter/Collage/MainViewController.swift:86 | reading the rendered count back as a decimal number gives the count |
| `CollageUi.Title` | starter/Collage/MainViewController.swift:86 | the title is "Collage" exactly when no photo is selected; otherwise it ends in " photos" and the digits before it are the count's decimal form: no leading zero, and they read back as the count |
| `CollageUi.SaveEnabled` | starter/Collage/MainViewController.swift:83 | save is enabled only for a non-empty, even count; it is never enabled for fewer than two photos, and whenever it is, clear is enabled too |
| `CollageUi.ClearEnabled` | starter/Collage/MainViewController.swift:84 | clear is enabled exactly when the title shows a count instead of "Collage" |
| `CollageUi.AddEnabled` | starter/Collage/MainViewController.swift:85 | add is enabled below six photos; whenever it is disabled, the selection is non-empty, so clear is enabled |
| `CollageUi.TitleInjective` | starter/Collage/MainViewController.swift:86 | two different counts never show the same title |
| `CollageUi.InitialUi` | starter/Collage/MainViewController.swift:82-87 | with the empty selection, save and clear are disabled, add is enabled and the title is "Collage" |
| `CollageUi.UiOnePhoto` | starter/Collage/MainViewController.swift:82-87 | one photo: save disabled, clear and add enabled, title "1 photos" |
| `CollageUi.UiTwoPhotos` | starter/Collage/MainViewController.swift:82-87 | two photos: save, clear and add enabled, title "2 photos" |
| `CollageUi.UiSixPhotos` | starter/Collage/MainViewController.swift:82-87 | six photos: add disabled, save and clear enabled, title "6 photos" |
| `CollageUi.TitleTwoDigits` | starter/Collage/MainViewController.swift:86 | a two-digit count appears in full in the title ("12 photos") |
| `CollageUi.SaveRules` | starter/Collage/MainViewController.swift:83-84 | save is disabled for every odd count; save enabled implies clear enabled; save is never enabled for two consecutive counts |
| `CollageUi.AddRules` | starter/Collage/MainViewController.swift:84-85 | add is disabled for every count of six and above, and whenever add is disabled, clear is enabled |
| `SelectionStore.Step` | starter/Collage/MainViewController.swift:91-113 | a clear gives the empty selection; an append gives one more element, with the earlier elements unchanged and in order and the new image last |
| `SelectionStore.ApplySnoc` | starter/Collage/MainViewController.swift:91-113 | the selection after a run of changes followed by one more change is that change applied to the selection after the run |
| `SelectionStore.ApplyAppends` | starter/Collage/MainViewController.swift:109-113 | a run of appends adds its images at the end of the selection in order, and keeps the earlier images unchanged and in order, with no capacity or duplicate check |
| `SelectionStore.ApplyAfterClear` | starter/Collage/MainViewController.swift:91-93 | after a clear, the selection is exactly the images appended since, in order, whatever came before |
| `SelectionStore.ClearIdempotent` | starter/Collage/MainViewController.swift:92 | clearing gives the empty selection from any selection, and clearing twice is clearing once |
| `SelectionStore.MainScreen.constructor` | starter/Collage/MainViewController.swift:50-69 | the selection starts empty, and the initial publication leaves save and clear disabled, add enabled, the title "Collage" and the preview rendered from the empty list |
| `SelectionStore.MainScreen.Publish` | starter/Collage/MainViewController.swift:58-87 | each publication recomputes the four UI outputs from the current count alone and renders the preview from the current list; the list is unchanged |
| `SelectionStore.MainScreen.Clear` | starter/Collage/MainViewController.swift:91-93 | the selection becomes empty whatever it held, and the UI shows the empty state |
| `SelectionStore.MainScreen.Append` | starter/Collage/MainViewController.swift:109-113 | the selection becomes the old selection plus the image at the end; the UI outputs and the preview follow the new list |
| `PhotoPicker.IsDegraded` | starter/Collage/PhotosViewController.swift:130 | a result is a thumbnail exactly when its info maps the degraded key to the boolean true; a missing key or a non-boolean value is not a thumbnail |
| `PhotoPicker.Accept` | starter/Collage/PhotosViewController.swift:124-137 | a result passes on an image exactly when both image and info are present and the info does not mark it as degraded, and then it passes on that image |
| `PhotoPicker.Accepted` | starter/Collage/PhotosViewController.swift:124-137 | a run of results passes on at most one image per result, and every image it passes on is the image of some accepted result of the run |
| `PhotoPicker.AcceptedConcat` | starter/Collage/PhotosViewController.swift:124-137 | filtering is per delivery: for a run of results split in two, the images passed on are those of the first part followed by those of the second |
| `PhotoPicker.AcceptedBound` | starter/Collage/PhotosViewController.swift:124-137 | each result passes on at most one image; a run of accepted results passes on one image per result, and a run of rejected results passes on nothing |
| `PhotoPicker.PhotosScreen.constructor` | starter/Collage/PhotosViewController.swift:41-45 | the count starts at 0, nothing has been sent and the subject is open |
| `PhotoPicker.PhotosScreen.Deliver` | starter/Collage/PhotosViewController.swift:124-139 | a rejected result changes neither the count nor what was sent; an accepted result raises the count by exactly one, and while the subject is open it sends that image exactly once, at the end; the count stays equal to the number of accepted results |
| `PhotoPicker.PhotosScreen.Disappear` | starter/Collage/PhotosViewController.swift:89-93 | the subject completes, and the count and the images sent stay as they were |
| `AddFlow.OpenPicker` | starter/Collage/MainViewController.swift:100-114 | the add action binds a fresh picker with count 0 and an open subject to the selection as it is now |
| `AddFlow.DeliverToSelection` | starter/Collage/MainViewController.swift:109-114 | an image the picker accepts while its subject is open is appended to the selection; a rejected result, or any result after completion, leaves the selection as it was; the selection stays the bound contents followed by everything sent |
| `AddFlow.ClosePicker` | starter/Collage/PhotosViewController.swift:89-93 | after the picker disappears, its subject is complete and the binding of the selection to what was sent still holds |

## Left out

- The collage renderer `UIImage.collage(images:size:)` is not part of this model. `MainScreen` receives it as a function from image lists to images and does not interpret it. The canvas size is left out.
- Persisting the collage (`PhotoWriter.save`) and the alert helpers are left out. Both are asynchronous calls into the photo library and into UIKit presentation.
- `actionSave` and `showMessage` are left out. In this code they only read the preview or present an alert.
- Photo-library authorization, asset fetching (`loadPhotos`), the collection-view data source, the cell flash and the `PHCachingImageManager` requests are left out. These are platform I/O. Each image request is modelled only through its completion: an optional image and an optional info dictionary, given as parameters.
- The thumbnail size and all other `CGSize` arithmetic are left out. They are floating point and depend on the screen scale.
- Main-queue scheduling, Combine subscription storage and the `weak`/`unowned` captures are left out. The one effect the model keeps is that the picker's subject completes, after which nothing it sends reaches the selection.
- The model has one subscriber per subject: the preview pipeline on the main screen and the add binding on the picker. It does not model a general list of observers.
- `PhotosScreen.Deliver`: the count is a `nat`. Swift's trap on `Int` overflow of `selectedPhotosCount` is not modelled, because it needs about 2^63 selections.
- Image content is opaque: `Image` is a type parameter, and the model never compares images in compiled code.

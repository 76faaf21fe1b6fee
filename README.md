# RoomVision core, modelled in Dafny

RoomVision is a room-design web application. A user uploads a photo of a room,
places furniture pictures from a catalog on it, moves, resizes and rotates
them, and saves the layout as a project. Administrators maintain the catalog.
Items that have a 3D model can be viewed in AR.

This project models the core logic of that application:

- **The layout editor** (`frontend/src/pages/Planner.jsx`). The pure list
  operations are in module `Layout`. The editor session is class
  `Planner.Session`, with the placed items, selection, title, room image and
  loading flag as fields.
- **The sign-in and sign-up forms** (`frontend/src/pages/AuthPages.jsx`), in
  module `AuthForms`:
  - the three regular expressions, as character-level predicates proved
    equal to the regex semantics;
  - the error maps that `validate` builds;
  - the form state that the change, blur and submit handlers update.
- **The administration panel** (`frontend/src/pages/AdminPanel.jsx`) and
  **the settings page** (`frontend/src/pages/Settings.jsx`), in modules
  `AdminPanel` and `Settings`. They cover form state, the submit guards and
  the two-step account deletion.
- **The AR catalog list** (`frontend/src/ar/ARCatalog.jsx`), in module
  `ARCatalog`. It covers the model filter and the thumbnail fallback.
- **The two document schemas** (`backend/models/Project.js`,
  `backend/models/Furniture.js`), in modules `ProjectSchema` and
  `FurnitureSchema`. They cover required paths, defaults, casting of placed
  items (with the `_id` Mongoose gives every element of an array of
  objects), and strict mode dropping undeclared paths.
- **The project and account endpoints**
  (`backend/controllers/projectController.js`,
  `backend/controllers/authController.js`), as the classes
  `Projects.ProjectStore` and `Accounts.UserStore` over in-memory maps keyed
  by document id.
- **How the editor's and the panel's requests look to the endpoints**, in
  module `Integration`.

Shared modules:

- `Wrappers`: `Option`, `Result`, a fetch outcome, JavaScript truthiness.
- `Seqs`: filter, subsequence, distinctness.
- `Js`: the `\s` character class, `trim`, and `parseInt` on decimal text.

Outside inputs are parameters:

- request results (`Fetch`: loaded or failed);
- freshly generated ids (a precondition that a document id is fresh; the
  `_id`s of new placed items come from a function `newIds` of the position);
- the clock (`now`);
- the uploaded file (as an optional data URL);
- the password hash (a function fixed when the user store is built, with
  `compare(p, h)` read as `hash(p) == h`).

The model follows the code where the project's written design describes more:

- The editor has no split between catalog and custom items.
- There is no "Custom" category.
- There is no error for a malformed placed item.
- Rotation is never normalised.
- There is no aspect-ratio rule tied to the start of a drag.
- A failed catalog request in the editor is caught rather than fatal. The
  editor then shows the empty catalog and skips loading the project.

## Model

| member | source | states |
|---|---|---|
| Js.Trim | frontend/src/pages/AuthPages.jsx:72 | the stored e-mail is the contiguous slice of the typed text that starts after its leading whitespace, and neither starts nor ends with a `\s` character |
| Js.TrimDropsOnlySpace | frontend/src/pages/AuthPages.jsx:72 | everything `trim` removes, before and after that slice, is whitespace |
| Js.TrimIdempotent | frontend/src/pages/AuthPages.jsx:220 | trimming an already stored e-mail again leaves it unchanged |
| Js.TrimNonEmpty | frontend/src/ar/ARCatalog.jsx:14 | `s.trim() !== ''` holds exactly when `s` contains a non-whitespace character |
| Js.ParseInt | frontend/src/pages/AdminPanel.jsx:151 | `parseInt` gives NaN exactly when no decimal digit follows the leading whitespace and optional sign |
| Js.ParseIntRoundTrip | frontend/src/pages/AdminPanel.jsx:151 | `parseInt` reads back every integer written in decimal, negative ones included |
| Js.ParseIntRun | frontend/src/pages/AdminPanel.jsx:151 | text starting with a run of digits parses to the value of that run, whatever follows it |
| Js.ParseIntPrefix | frontend/src/pages/AdminPanel.jsx:151 | a decimal integer followed by a non-digit (a fraction, an exponent) parses to that integer, so fractional entries are truncated |
| Js.ParseIntLeadingZeros | frontend/src/pages/AdminPanel.jsx:151 | any number of leading zeros before a decimal integer is ignored, whatever non-digit text follows |
| FurnitureSchema.MissingPaths | backend/models/Furniture.js:4-23 | a path is reported exactly when its `required` check fails; only `name` and `category` are required |
| FurnitureSchema.CreateFurniture | backend/models/Furniture.js:3-24 | validation fails exactly when the name or the category is absent or empty, with exactly those paths; otherwise `modelURL` defaults to "" while `imageURL` and each dimension stay optional |
| FurnitureSchema.CreateFurnitureRoundTrip | backend/models/Furniture.js:3-24 | every item satisfying the schema is rebuilt exactly from its own fields |
| ProjectSchema.CastItem | backend/models/Project.js:17-29 | a placed item keeps only the declared paths plus the implicit subdocument `_id`, which is kept when given and generated otherwise; absent x, y and rotation become 0; absent width and height stay absent |
| ProjectSchema.CastItems | backend/models/Project.js:17-30 | `itemsUsed` is cast item by item, same length and order, each element with its own generated `_id` if it lacks one |
| ProjectSchema.CastItemExplicit | backend/models/Project.js:17-28 | explicitly given values, `_id` included, survive the cast unchanged |
| ProjectSchema.MissingPaths | backend/models/Project.js:4-16 | `userId`, `title` and `roomImageURL` are each reported exactly when absent or empty, and nothing else is |
| ProjectSchema.CreateProject | backend/models/Project.js:3-31 | a project is created exactly when no required path is missing, then satisfies the schema, keeps the given fields, casts the items (absent array becomes empty) and has both timestamps equal to the creation time |
| Layout.NewItem | frontend/src/pages/Planner.jsx:68-76 | an added item carries the catalog record unchanged, the new id, position (50, 50), size 100 by 100 and rotation 0 |
| Layout.Merge | frontend/src/pages/Planner.jsx:81 | a patch overwrites exactly the fields it carries; the id and catalog fields are kept |
| Layout.UpdateAll | frontend/src/pages/Planner.jsx:80-82 | length, order and ids are unchanged; items with the id get the patch, every other item is identical |
| Layout.UpdateUnknownIdIsIdentity | frontend/src/pages/Planner.jsx:80-82 | an id not on the canvas leaves the list identical |
| Layout.Without | frontend/src/pages/Planner.jsx:85 | the kept items are exactly the items with another id |
| Layout.WithoutProperties | frontend/src/pages/Planner.jsx:84-87 | after removal no item has the id, the rest keep their order, and distinct ids stay distinct |
| Layout.DistinctIdsFilter | frontend/src/pages/Planner.jsx:85 | filtering a list with distinct ids keeps the ids distinct |
| Layout.Strip | frontend/src/pages/Planner.jsx:96 | a saved item is the canvas item without `uniqueId`, every other field kept |
| Layout.StripAll | frontend/src/pages/Planner.jsx:96 | the payload lists one saved item per canvas item, in order |
| Layout.SaveRequestFor | frontend/src/pages/Planner.jsx:89-111 | no request exactly when the room image is falsy; a PUT to the route id exactly when the route has an id, a POST otherwise; the payload is the title, the room image and the stripped items |
| Layout.HydrateItem | frontend/src/pages/Planner.jsx:39-44 | a loaded item gets the fresh id and keeps its fields; a falsy width or height becomes 100 |
| Layout.Hydrate | frontend/src/pages/Planner.jsx:39-44 | loading maps the stored items in order, the k-th taking the k-th fresh id |
| Layout.HydrateStripped | frontend/src/pages/Planner.jsx:39-44 | hydrating the save payload gives back every item field for field, except its id, when no size was 0; the server stores less (see Integration.SavedGeometry) |
| Layout.HydrateStrippedSameIds | frontend/src/pages/Planner.jsx:39-44 | with the same ids, hydrating the save payload gives back the same list |
| Layout.ZeroSizeNotRestored | frontend/src/pages/Planner.jsx:42-43 | a saved width of 0 comes back as 100 |
| Layout.FindIndex | frontend/src/pages/Planner.jsx:35 | the search stops at the first project with the id, and finds none exactly when no project has it |
| Layout.FindProject | frontend/src/pages/Planner.jsx:35 | the project found is the first with the id |
| Layout.LoadTarget | frontend/src/pages/Planner.jsx:22-50 | nothing is loaded when the catalog request fails, the route has no id or the project list request fails; otherwise the first project with the route id, if any |
| Layout.Clamp | frontend/src/pages/Planner.jsx:224-225 | the result lies in the range, equals the value inside it, and is the violated bound outside it; in an empty range the lower bound wins |
| Layout.DragStopPatch | frontend/src/pages/Planner.jsx:211-212 | a drag stop writes only x and y, never negative and keeping the item inside an 800x600 canvas (600x400 without a room image) when it fits; a position already inside is kept |
| Layout.ResizeStopPatch | frontend/src/pages/Planner.jsx:223-225 | a resize stop writes only width and height, each within [50, 400]; a size already inside is kept |
| Layout.RotatePatch | frontend/src/pages/Planner.jsx:242-243 | a rotate button writes only the rotation, 90 degrees less or more |
| Layout.ManipulationsWriteOwnFields | frontend/src/pages/Planner.jsx:211-243 | merged into an item, drag changes only x and y, resize only width and height, rotate only rotation, by exactly 90 degrees |
| Layout.RotationAccumulates | frontend/src/pages/Planner.jsx:243 | n clockwise turns add 90n degrees; the angle is never reduced modulo 360 |
| Layout.Lookup | frontend/src/pages/Planner.jsx:186-193 | an item is found exactly when the id is on the canvas, and it carries that id |
| Planner.Session.constructor | frontend/src/pages/Planner.jsx:10-17 | the editor starts empty, with the default title, no room image, and loading |
| Planner.Session.Init | frontend/src/pages/Planner.jsx:20-54 | a loaded catalog is stored; the project is loaded (title, room image, hydrated items) exactly when there is one to load; loading always ends; ids stay distinct |
| Planner.Session.SetTitle | frontend/src/pages/Planner.jsx:152 | the title becomes the typed value |
| Planner.Session.UploadRoomImage | frontend/src/pages/Planner.jsx:56-65 | a chosen file becomes the room image; without a file nothing changes |
| Planner.Session.AddItemToCanvas | frontend/src/pages/Planner.jsx:67-78 | exactly one item is appended, the earlier items are unchanged, ids stay distinct |
| Planner.Session.UpdateItem | frontend/src/pages/Planner.jsx:80-82 | the items become the merged list; an unknown id changes nothing |
| Planner.Session.RemoveItem | frontend/src/pages/Planner.jsx:84-87 | the id is gone, the rest is an ordered subsequence, and the selection is cleared |
| Planner.Session.Select | frontend/src/pages/Planner.jsx:191 | the clicked item becomes the selection |
| Planner.Session.Save | frontend/src/pages/Planner.jsx:89-111 | without a room image nothing is sent; otherwise a PUT or POST with the title, room image and every item stripped of its id; the editor state is not changed |
| Planner.Session.DragStop | frontend/src/pages/Planner.jsx:211 | the dragged item gets the drag-stop position and nothing else changes |
| Planner.Session.ResizeStop | frontend/src/pages/Planner.jsx:223 | the resized item gets the bounded size and nothing else changes |
| Planner.Session.Rotate | frontend/src/pages/Planner.jsx:242-243 | the item's rotation moves by 90 degrees and nothing else changes |
| AuthForms.EmailRegexIff | frontend/src/pages/AuthPages.jsx:20 | the e-mail regex matches exactly the strings with no whitespace, one `@` with something before it, and after it a `.` that is neither first nor last |
| AuthForms.PasswordRegexIff | frontend/src/pages/AuthPages.jsx:131 | the password regex matches exactly the strings of 8 or more characters from `[A-Za-z0-9@$!%*?&]` that contain a lower-case letter, an upper-case letter, a digit and a special |
| AuthForms.EmailError | frontend/src/pages/AuthPages.jsx:18-22 | no error exactly for a well-formed address; "Email is required" exactly for the empty one |
| AuthForms.LoginPasswordError | frontend/src/pages/AuthPages.jsx:25-27 | sign-in only requires a non-empty password |
| AuthForms.NameRegexIff | frontend/src/pages/AuthPages.jsx:129 | the name regex, as two mandatory repetitions and a star, matches exactly the strings of two or more ASCII letters or whitespace characters |
| AuthForms.IsName | frontend/src/pages/AuthPages.jsx:129 | the character-level name test agrees with the name regex on every string |
| AuthForms.NameError | frontend/src/pages/AuthPages.jsx:137-141 | no error exactly for two or more ASCII letters or whitespace characters; "Name is required" exactly for the empty name |
| AuthForms.SignupPasswordError | frontend/src/pages/AuthPages.jsx:151-155 | no error exactly for a strong password; "Password is required" exactly for the empty one |
| AuthForms.LoginErrors | frontend/src/pages/AuthPages.jsx:15-30 | the map holds an entry for a field exactly when that field has an error, with that error's message, and depends only on that field's value |
| AuthForms.LoginValidIff | frontend/src/pages/AuthPages.jsx:15-30 | sign-in validation passes exactly for a well-formed address with a non-empty password |
| AuthForms.SignupErrors | frontend/src/pages/AuthPages.jsx:133-158 | the map holds an entry for a field exactly when that field has an error, with that error's message |
| AuthForms.SignupValidIff | frontend/src/pages/AuthPages.jsx:133-158 | sign-up validation passes exactly when name, e-mail and password all satisfy their patterns |
| AuthForms.LoginErrorsAfterEmailChange | frontend/src/pages/AuthPages.jsx:71-74 | as written: after a change the e-mail error is absent exactly when the previous value was well formed, whatever was typed |
| AuthForms.LoginErrorsAfterEmailChangeIntended | frontend/src/pages/AuthPages.jsx:71-74 | corrected behaviour: after a change the e-mail error is absent exactly when the stored value is well formed |
| AuthForms.ExamplePrefixInvalid | frontend/src/pages/AuthPages.jsx:18-22 | the prefix "a@b." gets "Invalid email format" (the dot is last) |
| AuthForms.ExampleAddressValid | frontend/src/pages/AuthPages.jsx:18-22 | "a@b.c" is a well-formed address that trimming leaves unchanged |
| AuthForms.StaleEmailError | frontend/src/pages/AuthPages.jsx:71-74 | whenever the previous value is malformed and the typed one is a valid address (such as "a@b." followed by "a@b.c"), the handler still stores "Invalid email format"; the corrected version stores no e-mail error |
| AuthForms.LoginForm.constructor | frontend/src/pages/AuthPages.jsx:7-12 | empty fields, no errors, nothing touched, not loading |
| AuthForms.LoginForm.Validate | frontend/src/pages/AuthPages.jsx:15-31 | stores the error map and returns true exactly when it is empty, that is for a well-formed address and a non-empty password |
| AuthForms.LoginForm.ChangeEmail | frontend/src/pages/AuthPages.jsx:71-74 | the e-mail is stored trimmed; a touched field is re-validated on the value before the change |
| AuthForms.LoginForm.ChangePassword | frontend/src/pages/AuthPages.jsx:90-93 | the password is stored as typed; a touched field is re-validated on the previous value |
| AuthForms.LoginForm.Blur | frontend/src/pages/AuthPages.jsx:33-36 | the field joins the touched set and the errors describe the current values |
| AuthForms.LoginForm.Submit | frontend/src/pages/AuthPages.jsx:38-52 | both fields become touched; `login` is called exactly when validation passes, with the stored values; a failing form never calls it |
| AuthForms.SignupForm.constructor | frontend/src/pages/AuthPages.jsx:117-123 | empty fields, no errors, nothing touched, not loading |
| AuthForms.SignupForm.Validate | frontend/src/pages/AuthPages.jsx:133-159 | stores the error map and returns true exactly when name, e-mail and password are all valid |
| AuthForms.SignupForm.ChangeName | frontend/src/pages/AuthPages.jsx:200-203 | the name is stored as typed; a touched field is re-validated on the previous value |
| AuthForms.SignupForm.ChangeEmail | frontend/src/pages/AuthPages.jsx:219-222 | the e-mail is stored trimmed; a touched field is re-validated on the previous value |
| AuthForms.SignupForm.ChangePassword | frontend/src/pages/AuthPages.jsx:238-241 | the password is stored as typed; a touched field is re-validated on the previous value |
| AuthForms.SignupForm.Blur | frontend/src/pages/AuthPages.jsx:161-164 | the field joins the touched set and the errors describe the current values |
| AuthForms.SignupForm.Submit | frontend/src/pages/AuthPages.jsx:166-181 | all three fields become touched; `signup` is called exactly when validation passes, with the stored values |
| AdminPanel.FetchesFor | frontend/src/pages/AdminPanel.jsx:21-25 | the catalog is always fetched, users exactly on the users tab, projects exactly on the projects tab |
| AdminPanel.CanAdd | frontend/src/pages/AdminPanel.jsx:80 | the upload alert is shown exactly when neither an image nor a model was uploaded |
| AdminPanel.NumberField | frontend/src/pages/AdminPanel.jsx:151 | a number input stores the parsed integer, and 0 when parsing gives NaN; with Js.ParseIntPrefix and Js.ParseIntLeadingZeros, "12.5" stores 12, "1e3" stores 1 and "007" stores 7 |
| AdminPanel.NumberFieldReadsBack | frontend/src/pages/AdminPanel.jsx:148-154 | an input showing an integer stores that integer |
| AdminPanel.Panel.constructor | frontend/src/pages/AdminPanel.jsx:6-16 | the form starts empty with dimensions 50, 50, 0 on the furniture tab |
| AdminPanel.Panel.SelectTab | frontend/src/pages/AdminPanel.jsx:117-119 | the tab becomes active; the fetch effect runs, with that tab's requests, exactly when the tab changed |
| AdminPanel.Panel.ReceiveFurniture | frontend/src/pages/AdminPanel.jsx:27-34 | a loaded catalog replaces the list; a failure keeps it |
| AdminPanel.Panel.ReceiveUsers | frontend/src/pages/AdminPanel.jsx:36-43 | a loaded user list replaces the list; a failure keeps it |
| AdminPanel.Panel.ReceiveProjects | frontend/src/pages/AdminPanel.jsx:45-52 | a loaded project list replaces the list; a failure keeps it |
| AdminPanel.Panel.SetName | frontend/src/pages/AdminPanel.jsx:132 | only the name changes |
| AdminPanel.Panel.SetCategory | frontend/src/pages/AdminPanel.jsx:141 | only the category changes |
| AdminPanel.Panel.SetWidth | frontend/src/pages/AdminPanel.jsx:151 | only the width changes, to the parsed value or 0 |
| AdminPanel.Panel.SetHeight | frontend/src/pages/AdminPanel.jsx:161 | only the height changes, to the parsed value or 0 |
| AdminPanel.Panel.UploadImage | frontend/src/pages/AdminPanel.jsx:54-63 | an upload sets only `imageURL` |
| AdminPanel.Panel.UploadModel | frontend/src/pages/AdminPanel.jsx:65-74 | an upload sets only `modelURL` |
| AdminPanel.Panel.AddFurniture | frontend/src/pages/AdminPanel.jsx:76-100 | nothing is sent exactly when both uploads are empty; otherwise the form is sent, and after a successful post it returns to its initial value and the catalog is fetched again; a failed post keeps it |
| Settings.WithPassword | frontend/src/pages/Settings.jsx:66-106 | each input replaces only its own password field |
| Settings.Toggled | frontend/src/pages/Settings.jsx:71-111 | each eye button flips exactly its own visibility flag |
| Settings.ToggleTwice | frontend/src/pages/Settings.jsx:71 | pressing an eye button twice restores the visibility |
| Settings.SettingsPage.constructor | frontend/src/pages/Settings.jsx:10-13 | empty fields, all hidden, not loading, delete step 0 |
| Settings.SettingsPage.SetPassword | frontend/src/pages/Settings.jsx:66-106 | only the edited field changes |
| Settings.SettingsPage.ToggleShow | frontend/src/pages/Settings.jsx:71-111 | only the pressed flag flips |
| Settings.SettingsPage.ChangePassword | frontend/src/pages/Settings.jsx:15-33 | a new password differing from its confirmation sends nothing and changes nothing; otherwise the current and new passwords are sent, the fields are cleared on success and kept on failure, and loading ends false |
| Settings.SettingsPage.ClickDeleteAccount | frontend/src/pages/Settings.jsx:138-140 | the page moves to the confirmation step |
| Settings.SettingsPage.ClickCancel | frontend/src/pages/Settings.jsx:160 | the page returns to step 0 |
| Settings.SettingsPage.ClickConfirmDelete | frontend/src/pages/Settings.jsx:154 | the delete request is sent exactly from the confirmation step |
| ARCatalog.HasModel | frontend/src/ar/ARCatalog.jsx:14 | an item passes exactly when its `modelURL` is present and holds a non-whitespace character |
| ARCatalog.ARItems | frontend/src/ar/ARCatalog.jsx:14 | every kept item was fetched and has a model; every fetched item with a model is kept |
| ARCatalog.ARItemsSpec | frontend/src/ar/ARCatalog.jsx:14 | the kept items are, in fetched order, exactly those whose `modelURL` is present and holds a non-whitespace character |
| ARCatalog.ThumbnailOf | frontend/src/ar/ARCatalog.jsx:47-55 | the thumbnail URL if truthy, else the image URL if truthy, else the placeholder icon; a picture never has an empty URL |
| ARCatalog.CatalogThumbnail | frontend/src/ar/ARCatalog.jsx:47-49 | for stored catalog items, which have no thumbnail path, the picture is the 2D image or the icon |
| ARCatalog.CatalogView.constructor | frontend/src/ar/ARCatalog.jsx:6-7 | the list starts empty and loading |
| ARCatalog.CatalogView.Load | frontend/src/ar/ARCatalog.jsx:9-24 | a loaded catalog is filtered into the list; a failure keeps the list as it was, empty on first load; loading ends false |
| Projects.Updated | backend/controllers/projectController.js:33-34 | a truthy title replaces the title, the items are replaced wholesale by the cast body items, `updatedAt` moves on; owner, room image and `createdAt` are kept |
| Projects.UpdateKeepsValid | backend/controllers/projectController.js:33-37 | an update never breaks the schema's required paths |
| Projects.UpdateIgnoresRoomImage | backend/controllers/projectController.js:23-35 | the update result does not depend on the `roomImageURL` in the body, and the room image is the stored one |
| Projects.UpdateIdempotent | backend/controllers/projectController.js:33-34 | applying the same update twice equals applying it once |
| Projects.MayChange | backend/controllers/projectController.js:29 | an admin may change every project, any other caller exactly the projects they own |
| Projects.NewestFirstPairwise | backend/controllers/projectController.js:47 | a list newest-first at each step is newest-first for every pair |
| Projects.InsertNewest | backend/controllers/projectController.js:47 | inserting adds exactly the one project |
| Projects.InsertKeepsNewestFirst | backend/controllers/projectController.js:47 | inserting keeps the list newest first |
| Projects.Remaining | backend/controllers/authController.js:151 | `deleteMany` keeps, unchanged, exactly the projects of the store that the filter does not match |
| Projects.FieldEquals | backend/models/Project.js:3-16 | a filter can match only on a path the schema declares; on `userId` it matches exactly the owner's projects |
| Projects.UserFilterDeletesNothing | backend/controllers/authController.js:151 | the filter on `user`, a path no project has, deletes nothing |
| Projects.OwnerFilterDeletesOwned | backend/models/Project.js:4-8 | a filter on `userId` deletes exactly the user's projects and keeps the others unchanged |
| Projects.ProjectStore.SaveProject | backend/controllers/projectController.js:3-19 | the caller becomes the owner and the body gives title, room image and items; a validation failure is a 500 that stores nothing |
| Projects.ProjectStore.UpdateProject | backend/controllers/projectController.js:21-42 | an unknown id is a 404 and a caller neither owner nor admin a 401, both changing nothing; otherwise only that project is replaced by its update |
| Projects.ProjectStore.GetUserProjects | backend/controllers/projectController.js:44-52 | exactly the projects owned by the id, each once and as stored, newest `createdAt` first; nothing changes |
| Projects.ProjectStore.DeleteProject | backend/controllers/projectController.js:54-69 | 404 and 401 as for update, changing nothing; otherwise exactly that project is removed |
| Projects.ProjectStore.DeleteMany | backend/controllers/authController.js:151 | a project stays exactly when the filter does not match it, and every project that stays is unchanged |
| Accounts.RoleOf | backend/controllers/authController.js:33 | the given role if truthy, else "user" |
| Accounts.NewUser | backend/controllers/authController.js:26-34 | a registered user has the given name and e-mail, the hash of the given password, the role rule and no picture |
| Accounts.Profiled | backend/controllers/authController.js:105-108 | a truthy name replaces the name; a picture that is not `undefined`, `null` and "" included, replaces the picture; e-mail, role and password are untouched |
| Accounts.ProfiledIdempotent | backend/controllers/authController.js:105-108 | the same profile change twice equals it once |
| Accounts.UserStore.Register | backend/controllers/authController.js:17-52 | a known e-mail is a 400 "User already exists" changing nothing; otherwise the user is stored, the response has no password, and the new user can log in |
| Accounts.UserStore.Login | backend/controllers/authController.js:54-82 | succeeds exactly when a user with that e-mail has the password's hash, returning that user without the password; an unknown e-mail and a wrong password give the same 400 |
| Accounts.UserStore.GetUser | backend/controllers/authController.js:84-98 | the caller's record without the password, or a 404 |
| Accounts.UserStore.UpdateProfile | backend/controllers/authController.js:100-122 | an unknown caller is a 404; otherwise only that user's name and picture change |
| Accounts.UserStore.UpdatePassword | backend/controllers/authController.js:124-143 | an unknown caller is a 404; a wrong current password is a 400 keeping the old hash; otherwise the new password's hash is stored and logs in |
| Accounts.UserStore.DeleteAccountAsWritten | backend/controllers/authController.js:145-160 | an unknown caller is a 404; otherwise the user is removed and, with the `user` filter, every project stays |
| Accounts.UserStore.DeleteAccount | backend/controllers/authController.js:145-160 | corrected filter: the user is removed with exactly the projects they own |
| Integration.ItemBody | frontend/src/pages/Planner.jsx:93-97 | a saved canvas item reaches the server with the catalog entry's id as its `_id`, without `itemId`, with the catalog image and its own geometry |
| Integration.RequestBody | frontend/src/pages/Planner.jsx:93-97 | the request body carries the title, room image and one item per saved item |
| Integration.PutKeepsStoredRoomImage | backend/controllers/projectController.js:23-35 | saving an existing design sends its room image, but the stored project keeps its old one |
| Integration.SavedGeometry | frontend/src/pages/Planner.jsx:96 | a canvas item is stored with its exact position, size and rotation; its link to the catalog item survives only as the subdocument `_id`, never as `itemId` |
| Integration.ReloadedItem | frontend/src/pages/Planner.jsx:39-44 | saving and reloading a canvas item restores its geometry when no size is 0, and keeps the catalog entry's id and image but nothing else from the catalog entry |
| Integration.CreatedItems | backend/controllers/projectController.js:5-12 | a new design with title and room image is stored with one placed item per canvas item, in order, geometry intact and the catalog entry's id as its `_id` |
| Integration.FormInput | frontend/src/pages/AdminPanel.jsx:86 | the posted form has every field present, empty strings included |
| Integration.AdminFormStored | frontend/src/pages/AdminPanel.jsx:80-86 | a sendable form is stored exactly when name and category are non-empty, and then has a non-empty image or model |
| Integration.InitialFormNotStorable | frontend/src/pages/AdminPanel.jsx:88-94 | the reset form can neither be sent nor stored |

## Left out

- Layout.HydrateStripped: a round trip of the save payload only. After a real save and reload each item keeps only its `_id`, `imageURL` and geometry, because strict mode drops the rest; Integration.ReloadedItem states that trip.
- Numbers are unbounded integers. JavaScript numbers are doubles, so fractional positions and sizes are not represented.
- Js.ParseInt: reads decimal text only. A `0x` prefix and precision loss beyond 2^53 are not modelled.
- Browser form validation is not modelled. The handlers run as if the browser always submitted the form, including with an empty `required` input or a malformed `type="email"` value.
- The resize handle's aspect-ratio lock is not modelled. It is arithmetic inside the drag-and-resize libraries; only their configured bounds are.
- File reading is a parameter: a file arrives as an optional data URL. The panel's upload callbacks run later and spread the form of their own render; they are modelled as immediate.
- Token issuance is left out. So is decoding the token in the editor, whose project list arrives as a parameter.
- The salt of the password hash is left out. The hash is a fixed function of the password.
- Register, login and the other handlers return the response body only; the token is not modelled.
- `backend/models/User.js` is not part of this model. Its required fields and defaults are unknown, so a registered user has no picture until one is set. Registration with missing body fields, which fails inside the hash or the save, is left out.
- Database failures behind the 500 responses are left out. The one modelled 500 is a project that fails validation on save.
- Ids are strings. The `ObjectId` and `toString()` comparisons are modelled as string equality.
- Projects.Updated: an absent `itemsUsed` is stored as the empty array. Casting errors are left out, because numbers are integers.
- ProjectSchema.CastItem: a generated subdocument `_id` is a parameter (`newIds`), so its uniqueness is not modelled. The catalog entry's id that a saved item carries as its `_id` is kept as given, and the same catalog item placed twice gives two subdocuments with one `_id`.
- Accounts.Profiled: a picture of a type other than string or `null` is not modelled; how `User.js` would cast it is unknown.
- Projects.ProjectStore.GetUserProjects: the order of projects with equal `createdAt` is not stated, because the sort leaves it unspecified.
- Projects.Remaining: a filter on a path the schema lacks matches no document. Under Mongoose's `strictQuery` setting such a path is instead removed from the filter, and `deleteMany` would then delete every project. The installed Mongoose version is not known here.
- The furniture schema's timestamps are not modelled. No rule depends on them.
- The admin user and project lists are opaque. The admin endpoints are not part of this model.
- Deleting a catalog item from the admin panel is left out. It is a confirmation dialog followed by a request.
- After a successful account deletion the settings page logs out and navigates away. That is not modelled; the page state is unchanged.
- Alerts, navigation after a save, and the AR viewer callback are left out.
- The asynchronous interleaving of requests is left out; each handler runs to completion.
- The `login` and `signup` calls into the authentication context are not part of this model. The form's submit returns the arguments it would pass.
- AuthForms.LoginForm.Submit: the request's outcome is not modelled. After a call `loading` is false, whatever the result.

## Findings

| source | as written | input that shows it | evidently intended | confidence | as-written member | corrected member |
|---|---|---|---|---|---|---|
| backend/controllers/authController.js:151 | projects are deleted with the filter `{ user: user._id }`, but the Project schema's owner path is `userId` (backend/models/Project.js:4), so no project matches | a user who owns one project deletes their account: the project stays, owned by a user who no longer exists | delete with `{ userId: user._id }`, removing exactly that user's projects | high, not executed | Accounts.UserStore.DeleteAccountAsWritten, Projects.UserFilterDeletesNothing | Accounts.UserStore.DeleteAccount, Projects.OwnerFilterDeletesOwned |
| frontend/src/pages/AuthPages.jsx:71-74 | the change handler stores the new value and then calls `validate`, which reads the values of the current render, that is the value before the change | touched e-mail field holding "a@b.", then typing "c": the stored "a@b.c" is valid, but the shown error is "Invalid email format" | validate the value just typed | medium, not executed | AuthForms.LoginErrorsAfterEmailChange, AuthForms.StaleEmailError | AuthForms.LoginErrorsAfterEmailChangeIntended |

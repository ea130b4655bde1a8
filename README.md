# Primelink International product page: routing and gallery modal

The repository is one edge-worker script, `hps.js`. It answers every request with
an HTML page. The page's content is chosen from the request's pathname. The page has an
embedded script that turns grouped thumbnails into a modal image viewer with prev/next
arrows. This project models the two pieces of that script that have real logic, and
proves properties of them:

- **Routing** (`routing.dfy`, module `Routing`):
  - `Normalize` is `page.replace(/\/$/, '') || '/'`. It removes at most one trailing slash and maps the empty result to `/`.
  - `Resolve` chooses the product page for `/himalayan-salt`. Every other path gets the not-found title, and a section whose link points back to `/himalayan-salt`.
  - `HandleRequest` composes the two, starting from an already-extracted pathname.
- **Gallery** (`gallery.dfy`, module `Gallery`): the modal viewer is the class `Modal`.
  - Its fields are the page-script globals (`modalGroupImages`, `modalCurrentIndex`) and the parts of the DOM the script writes: the modal's visibility, the displayed image, the two arrows, and the overlay heading and text.
  - `Open`, `Next`, `Prev` and `Dismiss` are `openModalGroup`, `nextImage`, `prevImage` and the `window.onclick` handler.
  - `ShowImage` is `showModalImage` together with `updateArrowVisibility`.
  - The pure functions `Sources`, `IndexOf`, `ImageAt`, `ArrowVisibility`, `NextIndex` and `PrevIndex` specify the methods. The lemmas about them state the properties.
  - The object invariant `Valid()` says that, once a group is open, the index lies in `[-1, |group|)` and the displayed image and the arrows reflect the group and the index.

Modelling decisions:
- The page-script globals never reach the browser from the worker scope (hps.js:5-6). In the page they come into existence at the first `openModalGroup`. So the constructor `Load` leaves the group, the index, the displayed image and the arrows unconstrained. A ghost flag `groupOpened` records whether a group has been opened. `Next` and `Prev` require it: before the first open the source would raise a ReferenceError, and their buttons sit inside the still-hidden modal.
- `indexOf` returns -1 when the clicked image's source is not in the group. The model keeps that value. `ImageAt` then yields `None`, which stands for JavaScript's `undefined`.
- On the page itself, every thumbnail calls `openModalGroup(this)` on an `.img-wrapper` that is a child of its container (hps.js:424-630). So `parentNode.querySelectorAll('.img-wrapper')` always contains the clicked wrapper. The -1 index, the `None` image and the empty group are a generalisation that the model covers and the page never reaches.
- An attribute that `getAttribute` does not find is `None`. "Truthy" means present and non-empty.
- When a container's `data-overlay-heading` or `data-overlay-text` is missing or empty, the previous heading or text stays on screen. There is no placeholder fallback (hps.js:269-274). See `Gallery.Modal.Open`.
- `Normalize` is not idempotent: `/himalayan-salt//` normalises to `/himalayan-salt/`, which gets the not-found page (`Routing.DoubleSlashNotFound`).

## Model

| member | source | states |
|---|---|---|
| `Routing.Normalize` | hps.js:11-12 | the result is never empty; `""` and `"/"` give `"/"`; a path of two or more characters ending in `/` loses exactly that one slash; any other non-empty path is unchanged |
| `Routing.Resolve` | hps.js:17-30 | the title is the product title exactly when the path is `/himalayan-salt`, and likewise for the product content; every other path gets the title "404 - Page Not Found" and a not-found section whose link is `/himalayan-salt` |
| `Routing.HandleRequest` | hps.js:10-30 | total over all pathnames; the title is always either the product title or the not-found title |
| `Routing.ProductPathnames` | hps.js:12-19 | a pathname reaches the product page if and only if it is `/himalayan-salt` or `/himalayan-salt/` |
| `Routing.OtherPathnamesNotFound` | hps.js:12-30 | every other pathname gets the not-found title and a link back to `/himalayan-salt` |
| `Routing.NormalizeIdempotentIff` | hps.js:12 | normalising twice equals normalising once if and only if the first result is `/` or does not end in a slash |
| `Routing.DoubleSlashKeepsOne` | hps.js:12 | of any path ending in `//`, normalisation removes exactly one slash and the result still ends in `/` |
| `Routing.DoubleSlashNotFound` | hps.js:12-22 | an example of the row above: `/himalayan-salt//` normalises to `/himalayan-salt/` and gets the not-found title |
| `Gallery.Sources` | hps.js:277-282 | the group has one source per wrapper, the wrapper's image `src`, in document order |
| `Gallery.IndexOf` | hps.js:284 | the result is in `[-1, |s|)`; it is -1 exactly when the source is absent; otherwise it is a position holding the source, and no earlier position holds it |
| `Gallery.ImageAtIndexOf` | hps.js:284-286 | looking up the first position of a source gives that source when the group holds it, and `undefined` (`None`) when it does not |
| `Gallery.ArrowVisibility` | hps.js:332-350 | prev is shown exactly when the group has more than one image and the index is not 0; next is shown exactly when the group has more than one image and the index is not the last |
| `Gallery.NextIndex` | hps.js:315-318 | never beyond the last index; from an index in `[-1, n)` it stays in `[0, n)` and moves by at most one; where it does not step by one it is the last index |
| `Gallery.PrevIndex` | hps.js:324-327 | never negative; from an index in `[-1, n)` it stays below `n`; it moves back by at most one and never above the old index (or above 0 from -1); where it does not step back by one it is 0 |
| `Gallery.ArrowsMatchMoves` | hps.js:313-350 | on a valid index, each arrow is shown exactly when clicking it would change the index |
| `Gallery.PrevUndoesNext` | hps.js:313-329 | from any index but the last, next then prev restores the index |
| `Gallery.NextUndoesPrev` | hps.js:313-329 | from any index but the first, prev then next restores the index |
| `Gallery.NextConverges` | hps.js:313-320 | after at least `n - 1 - index` clicks on next, the index is the last one, whatever the number of further clicks |
| `Gallery.PrevConverges` | hps.js:322-329 | after at least `index` clicks on prev (one, from -1), the index is 0, whatever the number of further clicks |
| `Gallery.OpenSelectsClicked` | hps.js:277-284 | when the clicked wrapper is in the container, the index is within the group, holds the clicked source, and is its first position |
| `Gallery.Modal.Load` | hps.js:243-253 | the loaded page: the modal is hidden, the overlay shows the default heading and text, and no group is open |
| `Gallery.Modal.ShowImage` | hps.js:290-311 | displays the given source, makes the modal visible, and recomputes the arrows from the current group length and index |
| `Gallery.Modal.Open` | hps.js:261-287 | heading and text are replaced only by truthy attributes, otherwise kept; the group is rebuilt from the container alone; the index is the first position of the clicked source; when the clicked wrapper is in the container that index is valid and holds it, and the modal shows the clicked image; the modal is visible and shows that image with the arrows derived from it |
| `Gallery.Modal.Next` | hps.js:313-320 | on an empty group nothing changes; otherwise the index becomes `NextIndex` of the old one, stays within the group, the modal is visible and shows that image, and the arrows are recomputed; the group and the overlay text never change |
| `Gallery.Modal.Prev` | hps.js:322-329 | on an empty group nothing changes; otherwise the index becomes `PrevIndex` of the old one, stays within the group, the modal is visible and shows that image, and the arrows are recomputed; the group and the overlay text never change |
| `Gallery.Modal.Dismiss` | hps.js:353-358 | the modal hides exactly when the click lands on the backdrop; nothing else changes, so the group and index survive a dismiss |

`Gallery.ModalSession` and `Gallery.ReopenSession` are verified client methods that replay concrete sessions: open `[A, B, C]` at `B`, step to the end and back; then re-open `[D, E]` at `E` and dismiss.

## Left out

- The fetch-event registration, the construction of the `Response`, its `Content-Type` and `Cache-Control: public, max-age=3600` headers, and the `async` wrapper (hps.js:1-3, 8-9, 32-37): runtime I/O.
- `new URL(request.url).pathname` (hps.js:9): a library call. The model takes the pathname as its input.
- The page template in `buildPage` and the product markup and image URLs in `generateHimalayanSaltPage`: static text. The product content is the opaque constructor `ProductPage`. The not-found section is modelled by its heading, message, link target and link text, without its markup.
- The DOM: `parentNode`, `querySelectorAll`, element creation, the logo overlay, `innerText` and `style.display`. A container is given as its overlay attributes and its list of wrappers. Each wrapper is given as its image's `src`. Browser resolution of relative URLs in `img.src` is not modelled.
- A wrapper without a `.base-image` (a TypeError in the source) cannot arise in the model, because a wrapper is its image's source.
- Event dispatch and bubbling: handlers run to completion one at a time. The clicks on an arrow or a thumbnail that bubble to `window.onclick` are modelled as `Dismiss(OtherElement)`.
- Gallery.Modal.Next, Gallery.Modal.Prev: they require a group to have been opened. Before that the source raises a ReferenceError, which the model does not represent.

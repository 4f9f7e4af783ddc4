# Hardware e-commerce: a Dafny model of its image editor, storefront pages and backend services

This project models the core of a hardware web shop. The shop has an Angular storefront and administration front end, and a Spring backend. The model is proved with Dafny.

**The product image editor (central part)**
- The editor of the administration screens keeps three things: the ordered image list of a product, the ids marked for deletion, and the position being dragged.
- Its handlers are modelled as methods of the `ImageEditor.Editor` class:
  - selecting files, with each file checked by the admin product service;
  - removing an image, where a stored image needs confirmation;
  - drag and drop;
  - renumbering, with the order updates it sends.
- When the product is saved, `processImages` plans the remote calls. It deletes the marked ids, uploads the new files and sends the order of stored images. It then waits on a shared counter object until every call has answered. That object is `CompletionBarrier.Barrier`.
- The model proves the following about a save that starts from any state the handlers can reach:
  - it issues exactly the calls it waits for;
  - it finishes exactly once, whatever order the answers arrive in.
- The model also proves that the save never finishes when an entry with an id lacks its product or its path. Such an entry is counted but never sent.

**Image paths and storage (`ImageUrls`, `FileStorage`, `ProductoImgService`)**
- The five functions that turn a stored image path into a browser URL are modelled, with:
  - what each normaliser keeps;
  - where two normalisers agree;
  - one path on which they disagree.
- The backend's file storage service is modelled: the extension check, the stored name, the deletion target and the public URL.
- The backend's product image service is modelled: listing by position, adding at the end, changing a position, and deletion.

**Storefront**
- The cart page, and the store that hands its selected lines to the payment page.
- The payment page: amounts, input formatting, the checks before paying, and the order and lines it creates.
- The product details page: the gallery order, the quantity selector, and adding to the cart.
- The review section: statistics, star rows and initials.
- The catalog: filters and sort options.

**Administration**
- The user list: filters and pagination.
- The dashboard cards.
- The order pages of the customer and of the administrator.
- The banner carousel.

**Backend services**
- Each Java service implementation is a class over its table, `rows: map<nat, E>`, plus the next id the table hands out.
- Creation, the null-skipping update (`actualizarCampos`) and deletion are methods, with their error paths:
  - an unknown id;
  - a duplicate SKU, e-mail address or name;
  - a rating outside 0..5;
  - a missing product.
- The invariant each class keeps is proved: ids below the next id, unique keys, ratings in range, and a status on every order.

Modelling conventions:
- Money is integer cents, ids are `nat`, and instants are integers.
- A nullable column or request field is an `Option`.
- A service error, which the source raises as a `RuntimeException`, is a `ServiceError` inside a `Result`.
- Every backend request, dialog, timer or clock the source calls is a parameter of the member that uses it: the answer it gave, whether the user confirmed, or `now`.

Some behaviour is modelled exactly as the code has it:
- A save whose list holds a stored image without `idProducto` or `urlImagen` waits forever. Images loaded from the backend always carry both, so the editor invariant (`ImageEditor.EditorInvariant`) rules this out in reachable states.
- An upload named, for instance, `png` with no dot passes `isValidImageFile`, because the whole name is taken as the extension. It then fails in `storeFile`, where `substring(lastIndexOf("."))` is given -1.
- `updateProducto` dereferences the stored SKU when the request carries one. A product stored without a SKU therefore cannot be given one; this is modelled as `NullDereference("sku")`.
- `goToSlide` accepts any index, and `nextSlide` then climbs past the last slide without wrapping.

## Model

| member | source | states |
|---|---|---|
| `ImageSet.FromServer` | src/app/features/admin/components/products/products-edit.component/products-edit.component.ts:102-109 | the editor entry of a stored image keeps its id and position, has no file, previews through the editor normaliser, and can be sent an order update when its id and path are non-empty |
| `ImageSet.BatchItems` | src/app/features/admin/components/products/products-edit.component/products-edit.component.ts:128-155 | one file selection appends exactly as many entries as it has accepted files |
| `ImageSet.BatchItemsAreAcceptedFiles` | src/app/features/admin/components/products/products-edit.component/products-edit.component.ts:135-152 | the appended entries are the accepted files in selection order, each with the same `orden`; a rejected file is skipped and the rest of the batch still goes in |
| `ImageSet.RejectionMessages` | src/app/features/admin/components/products/products-edit.component/products-edit.component.ts:137-141 | one message per rejected file, in selection order |
| `ImageSet.BatchStep` | src/app/features/admin/components/products/products-edit.component/products-edit.component.ts:135-155 | taking one more file extends the appended entries or the messages by that file's outcome only |
| `ImageSet.RemoveAt` | src/app/features/admin/components/products/products-edit.component/products-edit.component.ts:170-175 | the filtered list is one shorter and keeps every other entry in order |
| `ImageSet.Move` | src/app/features/admin/components/products/products-edit.component/products-edit.component.ts:195-197 | the two splices put the dragged entry at the drop position, keep the others in their relative order and lose or add nothing (a permutation) |
| `ImageSet.MoveSourceInjective` | src/app/features/admin/components/products/products-edit.component/products-edit.component.ts:195-197 | different positions of the moved list come from different positions of the original |
| `ImageSet.MoveSourceSpec` | src/app/features/admin/components/products/products-edit.component/products-edit.component.ts:195-197 | each entry of the moved list is the original entry at a computed source position |
| `ImageSet.Renumber` | src/app/features/admin/components/products/products-edit.component/products-edit.component.ts:204-208 | renumbering sets `orden` to 1..n in list order and changes nothing else |
| `ImageSet.OrderUpdates` | src/app/features/admin/components/products/products-edit.component/products-edit.component.ts:211-218 | as many order updates as entries with id, product and path |
| `ImageSet.OrderUpdatesSpec` | src/app/features/admin/components/products/products-edit.component/products-edit.component.ts:211-218 | `reorderImages` sends one update per entry with id, product and path, in list order: the k-th update carries the k-th such entry's id and its new position |
| `ImageSet.RenumberedUpdatesAscend` | src/app/features/admin/components/products/products-edit.component/products-edit.component.ts:203-218 | after renumbering, the positions sent lie in 1..n and rise strictly, so no two stored images are sent the same position |
| `ImageSet.MakePlan` | src/app/features/admin/components/products/products-edit.component/products-edit.component.ts:278-288 | the save deletes the marked ids, uploads the entries with a file, reorders the entries with an id and no file, and waits for the sum of the three counts |
| `ImageSet.PlanPartition` | src/app/features/admin/components/products/products-edit.component/products-edit.component.ts:279-280 | the upload and reorder lists are disjoint, and an entry in neither has no file and no id |
| `ImageSet.PartitionCount` | src/app/features/admin/components/products/products-edit.component/products-edit.component.ts:279-280 | every entry has a file, or is a reorder, or has neither file nor id, so the three counts add up to the list length |
| `ImageSet.PlanEmpty` | src/app/features/admin/components/products/products-edit.component/products-edit.component.ts:292-296 | the save has nothing to wait for exactly when no id is marked and no entry has a file or an id |
| `ImageSet.Issued` | src/app/features/admin/components/products/products-edit.component/products-edit.component.ts:298-349 | the calls issued are a delete per marked id, an upload per entry with a file, and an order update only for reorder entries that also have product and path |
| `ImageSet.IssuedUploadAt` | src/app/features/admin/components/products/products-edit.component/products-edit.component.ts:314-330 | right after the deletions come the uploads: the k-th upload carries the file and position of the k-th entry with a file |
| `ImageSet.IssuedUpdateAt` | src/app/features/admin/components/products/products-edit.component/products-edit.component.ts:332-349 | after the uploads come the order updates: the k-th update carries the id and position of the k-th patchable reorder entry |
| `ImageSet.IssuedMatchesTotal` | src/app/features/admin/components/products/products-edit.component/products-edit.component.ts:278-349 | the save issues at most as many calls as it waits for, and exactly as many iff every reorder entry has product and path |
| `ImageSet.MarkUploading` | src/app/features/admin/components/products/products-edit.component/products-edit.component.ts:315-316 | only the `uploading` flag of an entry can change, and afterwards an entry is uploading iff it has a file or was already uploading |
| `ImageEditor.Loaded` | src/app/features/admin/components/products/products-edit.component/products-edit.component.ts:102-110 | the editor shows one entry per stored image, in the backend's order |
| `ImageEditor.InvariantRenumber` | src/app/features/admin/components/products/products-edit.component/products-edit.component.ts:203-208 | renumbering keeps the editor invariant (ids distinct, deleted ids never shown, shown stored images patchable) |
| `ImageEditor.InvariantRemove` | src/app/features/admin/components/products/products-edit.component/products-edit.component.ts:160-178 | removing an entry keeps the invariant, with a removed stored image's id added to the deletions |
| `ImageEditor.InvariantTransfer` | src/app/features/admin/components/products/products-edit.component/products-edit.component.ts:189-201 | a list taken from the entries at distinct positions keeps the invariant |
| `ImageEditor.InvariantMove` | src/app/features/admin/components/products/products-edit.component/products-edit.component.ts:195-199 | a drag-and-drop move keeps the invariant |
| `ImageEditor.InvariantMarkUploading` | src/app/features/admin/components/products/products-edit.component/products-edit.component.ts:315-316 | marking uploads keeps the invariant |
| `ImageEditor.InvariantAppendNew` | src/app/features/admin/components/products/products-edit.component/products-edit.component.ts:146-152 | appending entries without an id keeps the invariant |
| `ImageEditor.InvariantAppendBatch` | src/app/features/admin/components/products/products-edit.component/products-edit.component.ts:146-152 | appending the entries of a file selection keeps the invariant |
| `ImageEditor.InvariantIssuesAll` | src/app/features/admin/components/products/products-edit.component/products-edit.component.ts:283-349 | an editor keeping the invariant issues as many calls as its save waits for |
| `ImageEditor.SaveFinishesOnce` | src/app/features/admin/components/products/products-edit.component/products-edit.component.ts:277-364 | a save started from a reachable editor finishes exactly once when all responses have arrived, in any order |
| `ImageEditor.SaveHangsWithoutUrl` | src/app/features/admin/components/products/products-edit.component/products-edit.component.ts:280-349 | a reorder entry without product or path is counted but never patched, so the save never finishes whatever the responses |
| `ImageEditor.SaveHangsExample` | src/app/features/admin/components/products/products-edit.component/products-edit.component.ts:280-349 | a concrete entry with an id and no path makes the save wait for one call it never issues |
| `ImageEditor.Editor.Load` | src/app/features/admin/components/products/products-edit.component/products-edit.component.ts:101-111 | opening the editor shows the stored images, marks nothing for deletion and has no drag in progress |
| `ImageEditor.Editor.AddBatch` | src/app/features/admin/components/products/products-edit.component/products-edit.component.ts:128-158 | `onFileSelected` appends the accepted files with position (entries before + 1) and reports each rejected file; deletions and drag are kept; the invariant holds |
| `ImageEditor.Editor.ReorderImages` | src/app/features/admin/components/products/products-edit.component/products-edit.component.ts:203-219 | the stored list becomes the renumbered list, and the updates sent are those of the new list |
| `ImageEditor.Editor.Remove` | src/app/features/admin/components/products/products-edit.component/products-edit.component.ts:160-178 | a stored image is removed and its id marked only on confirmation; an unsaved entry is removed at once; the rest are renumbered |
| `ImageEditor.Editor.OnDragStart` | src/app/features/admin/components/products/products-edit.component/products-edit.component.ts:181-183 | the drag position is remembered and nothing else changes |
| `ImageEditor.Editor.Drop` | src/app/features/admin/components/products/products-edit.component/products-edit.component.ts:189-201 | without a drag or when dropping in place nothing changes; otherwise the entry moves, the list is renumbered and the drag ends |
| `ImageEditor.Editor.ProcessImages` | src/app/features/admin/components/products/products-edit.component/products-edit.component.ts:277-350 | with nothing to wait for no call is made and no barrier exists; otherwise uploads are marked and a barrier starts over the issued calls, which are as many as it waits for |
| `ImageEditor.Editor.MarkFilesUploading` | src/app/features/admin/components/products/products-edit.component/products-edit.component.ts:315-316 | the images become the list with every file entry marked uploading |
| `CompletionBarrier.Record` | src/app/features/admin/components/products/products-edit.component/products-edit.component.ts:301-345 | each response moves exactly one counter by one: its kind's on success, `failed` on error |
| `CompletionBarrier.Replay` | src/app/features/admin/components/products/products-edit.component/products-edit.component.ts:352-353 | after k responses the completed count has grown by k |
| `CompletionBarrier.RecordCommutes` | src/app/features/admin/components/products/products-edit.component/products-edit.component.ts:301-345 | two responses handled in either order give the same counters |
| `CompletionBarrier.ReplayExtract` | src/app/features/admin/components/products/products-edit.component/products-edit.component.ts:301-345 | handling any one response first gives the same final counters |
| `CompletionBarrier.ReplayOrderIndependent` | src/app/features/admin/components/products/products-edit.component/products-edit.component.ts:301-345 | the final counters depend only on which responses arrived, not on their order |
| `CompletionBarrier.ReplayFailed` | src/app/features/admin/components/products/products-edit.component/products-edit.component.ts:298-349 | `failed` counts exactly the error responses |
| `CompletionBarrier.FiresExactlyOnce` | src/app/features/admin/components/products/products-edit.component/products-edit.component.ts:352-364 | `checkCompletion` fires exactly once if the responses carry the count from below the total to at least the total, and never otherwise |
| `CompletionBarrier.Barrier.Start` | src/app/features/admin/components/products/products-edit.component/products-edit.component.ts:283-289 | the counters start at zero with every issued call outstanding and nothing finished |
| `CompletionBarrier.Barrier.Settle` | src/app/features/admin/components/products/products-edit.component/products-edit.component.ts:352-364 | a response moves one counter and retires its call; the save finishes (navigates once) exactly when the count reaches the total, and the failure summary appears only then with a failure |
| `AdminProductService.ValidateImageFile` | src/app/features/admin/services/admin-product.service.ts:210-229 | a file is valid iff its type is allowed and its size is at most 5 MiB; the type check decides the message first |
| `ImageUrls.BackendIsHttp` | src/app/features/admin/components/products/products-edit.component/products-edit.component.ts:389 | the backend address used by the normalisers is an http URL |
| `ImageUrls.EditorPreviewUrl` | src/app/features/admin/components/products/products-edit.component/products-edit.component.ts:378-390 | empty stays empty and http(s) URLs are kept; a path starting with '/' is appended to the backend address, any other path is appended after an added '/' |
| `ImageUrls.EditorPreviewUrlIdempotent` | src/app/features/admin/components/products/products-edit.component/products-edit.component.ts:378-390 | normalising a preview URL again changes nothing |
| `ImageUrls.AdminImageUrl` | src/app/features/admin/services/admin-product.service.ts:201-205 | placeholder for empty, "http…" kept, otherwise the API address followed by the path |
| `ImageUrls.AdminImageUrlIdempotent` | src/app/features/admin/services/admin-product.service.ts:201-205 | with an http API address the admin normaliser is idempotent |
| `ImageUrls.CatalogImageUrl` | src/app/features/products/services/product.service.ts:106-116 | placeholder for empty, "http…" kept, otherwise the backend followed directly by the path |
| `ImageUrls.CatalogImageUrlIdempotent` | src/app/features/products/services/product.service.ts:106-116 | the catalog normaliser is idempotent on non-empty paths |
| `ImageUrls.GalleryImageUrl` | src/app/features/products/services/producto-imagen.service.ts:57-68 | like the catalog normaliser but only "http://" and "https://" count as absolute |
| `ImageUrls.GalleryImageUrlIdempotent` | src/app/features/products/services/producto-imagen.service.ts:57-68 | the gallery normaliser is idempotent on non-empty paths |
| `ImageUrls.CatalogAndGalleryDisagreeOnBareHttp` | src/app/features/products/services/producto-imagen.service.ts:57-68 | a path "httpfoo" is kept by the catalog and put under the backend by the gallery |
| `ImageUrls.NormalisersAgreeOnStoredPaths` | src/app/features/admin/components/products/products-edit.component/products-edit.component.ts:388-389 | on stored paths beginning with '/' the editor, catalog and gallery normalisers give the same URL |
| `ImageUrls.OrderImageUrl` | src/app/features/cart/components/pedidos.component/pedidos.component.ts:174-180 | the order pages' placeholder for missing or empty, "http…" kept, otherwise under the backend |
| `ImageUrls.OrderAndCatalogAgree` | src/app/features/admin/components/pedidos/pedidos.ts:179-183 | the order pages and the catalog agree on every non-empty path and differ on the empty one |
| `FileStorage.SplitAll` | src/main/java/org/example/restecommercehardware/Service/Impl/FileStorageService_Impl.java:92 | the pieces between separators contain no separator, and there is at least one |
| `FileStorage.JoinSplitAll` | src/main/java/org/example/restecommercehardware/Service/Impl/FileStorageService_Impl.java:92 | joining the pieces with the separator gives back the text |
| `FileStorage.DropTrailingEmpty` | src/main/java/org/example/restecommercehardware/Service/Impl/FileStorageService_Impl.java:92 | the kept pieces are a prefix, end in a non-empty piece, and only empty pieces were dropped |
| `FileStorage.JavaSplit` | src/main/java/org/example/restecommercehardware/Service/Impl/FileStorageService_Impl.java:92 | Java's `split`: the text itself when the separator does not occur, otherwise the separator-free pieces in order with only the trailing empty ones dropped |
| `FileStorage.JavaSplitMembership` | src/main/java/org/example/restecommercehardware/Service/Impl/FileStorageService_Impl.java:92-94 | a non-empty extension is allowed by Java's split exactly when it is one of all the pieces |
| `FileStorage.NoSeparatorOnePiece` | src/main/java/org/example/restecommercehardware/Service/Impl/FileStorageService_Impl.java:92 | a text without separator splits into itself |
| `FileStorage.CheckedExtension` | src/main/java/org/example/restecommercehardware/Service/Impl/FileStorageService_Impl.java:91 | the lower-cased whole name when it has no '.', otherwise the lower-cased text after its last '.' |
| `FileStorage.IsValidImageFile` | src/main/java/org/example/restecommercehardware/Service/Impl/FileStorageService_Impl.java:81-95 | an empty upload or one without a name is refused; otherwise it is valid iff its checked extension is one of the comma-separated allowed extensions (for a non-empty extension, one of all the pieces) |
| `FileStorage.StoreFile` | src/main/java/org/example/restecommercehardware/Service/Impl/FileStorageService_Impl.java:31-62 | an invalid upload is refused with the type message; a valid one is stored as "/uploads/producto_<id>_<uuid><ext>", and a valid name without '.' fails when its extension is cut |
| `FileStorage.NameWithoutDotPassesThenFails` | src/main/java/org/example/restecommercehardware/Service/Impl/FileStorageService_Impl.java:31-94 | an upload named "png" with "jpg,png" allowed passes the check and then fails to store |
| `FileStorage.SplitAllFirstPiece` | src/main/java/org/example/restecommercehardware/Service/Impl/FileStorageService_Impl.java:92 | a first piece free of the separator, followed by the separator, splits off whole and the rest splits on its own |
| `FileStorage.DeleteTarget` | src/main/java/org/example/restecommercehardware/Service/Impl/FileStorageService_Impl.java:68 | the whole path when it has no '/', otherwise exactly the text after its last '/' |
| `FileStorage.StoredName` | src/main/java/org/example/restecommercehardware/Service/Impl/FileStorageService_Impl.java:50 | the new file name starts with "producto_" and ends with the extension |
| `FileStorage.DeleteTargetsStoredFile` | src/main/java/org/example/restecommercehardware/Service/Impl/FileStorageService_Impl.java:50-68 | deleting by a stored path targets exactly the file that was written |
| `FileStorage.FullUrl` | src/main/java/org/example/restecommercehardware/Service/Impl/FileStorageService_Impl.java:97-99 | the full URL is the base URL followed by the stored path |
| `FileStorage.NatToString` | src/main/java/org/example/restecommercehardware/Service/Impl/FileStorageService_Impl.java:50 | the product id is printed as at least one decimal digit |
| `FileStorage.NatToStringValue` | src/main/java/org/example/restecommercehardware/Service/Impl/FileStorageService_Impl.java:50 | the printed digits read back as the id |
| `ProductoImgService.ByOrdenIsStrictWeak` | src/main/java/org/example/restecommercehardware/Service/Impl/ProductoImg_Service_Impl.java:42 | ordering by position is a strict weak order whose ties are the images at the same position |
| `ProductoImgService.ImagesOfSound` | src/main/java/org/example/restecommercehardware/Service/Impl/ProductoImg_Service_Impl.java:42 | every listed image is a stored image of the product |
| `ProductoImgService.ImagesOfComplete` | src/main/java/org/example/restecommercehardware/Service/Impl/ProductoImg_Service_Impl.java:42 | every stored image of the product is listed |
| `ProductoImgService.ImagesOfSpec` | src/main/java/org/example/restecommercehardware/Service/Impl/ProductoImg_Service_Impl.java:42 | the listing is sorted by position and holds exactly the product's images |
| `ProductoImgService.ImagesOf` | src/main/java/org/example/restecommercehardware/Service/Impl/ProductoImg_Service_Impl.java:42 | the listing has at most as many images as ids handed out, and is sorted by position and complete (by `ImagesOfSpec`) |
| `ProductoImgService.NextOrden` | src/main/java/org/example/restecommercehardware/Service/Impl/ProductoImg_Service_Impl.java:61-63 | 1 for a product without images; otherwise the last position + 1, which wraps from the 32-bit maximum to the 32-bit minimum as Java `int` addition does |
| `ProductoImgService.NextOrdenAboveAll` | src/main/java/org/example/restecommercehardware/Service/Impl/ProductoImg_Service_Impl.java:61-64 | when the last position is below the 32-bit maximum, the new position is above every existing position of the product |
| `ProductoImgService.NextOrdenAboveStored` | src/main/java/org/example/restecommercehardware/Service/Impl/ProductoImg_Service_Impl.java:61-64 | when every stored position of the product is below the 32-bit maximum, the new position is above each of them |
| `ProductoImgService.NextOrdenWrapsAtMax` | src/main/java/org/example/restecommercehardware/Service/Impl/ProductoImg_Service_Impl.java:61-63 | when the last position is the 32-bit maximum the new position wraps to the minimum and lies below every existing position |
| `ProductoImgService.ImageStore.GetImagenesByProducto` | src/main/java/org/example/restecommercehardware/Service/Impl/ProductoImg_Service_Impl.java:39-43 | an unknown product fails; otherwise the product's images sorted by position, all of them |
| `ProductoImgService.ImageStore.CreateProductoImg` | src/main/java/org/example/restecommercehardware/Service/Impl/ProductoImg_Service_Impl.java:47-67 | an unknown product or a refused file fails and stores nothing; otherwise one row under the next id whose position is the last position + 1 with Java `int` wrap-around (1 for a first image), above every stored position of the product while those are below the 32-bit maximum |
| `ProductoImgService.ImageStore.UpdateProductoImg` | src/main/java/org/example/restecommercehardware/Service/Impl/ProductoImg_Service_Impl.java:71-80 | an unknown id fails; otherwise only a supplied position is copied |
| `ProductoImgService.ImageStore.DeleteProductoImg` | src/main/java/org/example/restecommercehardware/Service/Impl/ProductoImg_Service_Impl.java:84-93 | an unknown id fails; otherwise the row goes and its file is the deletion target |
| `Wrappers.Patched` | src/main/java/org/example/restecommercehardware/Service/Impl/Producto_Service_Impl.java:133-135 | a supplied (non-null) value replaces the stored one, a null keeps it |
| `Wrappers.PatchedOpt` | src/main/java/org/example/restecommercehardware/Service/Impl/Usuario_Service_Impl.java:89-91 | the same for a nullable column |
| `ProductoService.ActualizarCampos` | src/main/java/org/example/restecommercehardware/Service/Impl/Producto_Service_Impl.java:132-157 | each non-null field of the request replaces the stored one; id and instants are untouched |
| `ProductoService.ActualizarCamposIdempotent` | src/main/java/org/example/restecommercehardware/Service/Impl/Producto_Service_Impl.java:132-157 | applying a request twice is applying it once |
| `ProductoService.ActualizarCamposThen` | src/main/java/org/example/restecommercehardware/Service/Impl/Producto_Service_Impl.java:132-157 | two requests in a row equal one merged request |
| `ProductoService.ValidarSkuUnico` | src/main/java/org/example/restecommercehardware/Service/Impl/Producto_Service_Impl.java:126-130 | a SKU is refused as duplicate iff some product holds it |
| `ProductoService.FreshSkuKeepsUnique` | src/main/java/org/example/restecommercehardware/Service/Impl/Producto_Service_Impl.java:70-88 | writing a product whose SKU is its own or unheld keeps SKUs unique |
| `ProductoService.ProductoStore.CreateProducto` | src/main/java/org/example/restecommercehardware/Service/Impl/Producto_Service_Impl.java:70-77 | a held SKU is refused; otherwise the product is stored under the next id with creation and update instants from two separate clock readings, SKUs stay unique |
| `ProductoService.ProductoStore.UpdateProducto` | src/main/java/org/example/restecommercehardware/Service/Impl/Producto_Service_Impl.java:81-93 | unknown id fails; a new SKU against a null stored SKU dereferences null; a different held SKU is refused; otherwise the merged row with `actualizadoEn = now` |
| `ProductoService.ProductoStore.DeleteProducto` | src/main/java/org/example/restecommercehardware/Service/Impl/Producto_Service_Impl.java:97-102 | unknown id fails; otherwise the row goes |
| `UsuarioService.ActualizarCampos` | src/main/java/org/example/restecommercehardware/Service/Impl/Usuario_Service_Impl.java:88-116 | each of the nine non-null fields replaces the stored one; id and instants untouched |
| `UsuarioService.ActualizarCamposIdempotent` | src/main/java/org/example/restecommercehardware/Service/Impl/Usuario_Service_Impl.java:88-116 | applying a request twice is applying it once |
| `UsuarioService.ValidarCorreoUnico` | src/main/java/org/example/restecommercehardware/Service/Impl/Usuario_Service_Impl.java:82-86 | an address is refused iff some user holds it |
| `UsuarioService.FreshEmailKeepsUnique` | src/main/java/org/example/restecommercehardware/Service/Impl/Usuario_Service_Impl.java:40-57 | writing a user whose address is their own or unheld keeps addresses unique |
| `UsuarioService.UsuarioStore.ExistsByEmail` | src/main/java/org/example/restecommercehardware/Service/Impl/Usuario_Service_Impl.java:77-79 | true iff some stored user has the address, equivalently iff it appears in the listing |
| `UsuarioService.UsuarioStore.CreateUsuario` | src/main/java/org/example/restecommercehardware/Service/Impl/Usuario_Service_Impl.java:40-45 | a held address is refused; otherwise stored under the next id with creation and update instants from two separate clock readings |
| `UsuarioService.UsuarioStore.UpdateUsuario` | src/main/java/org/example/restecommercehardware/Service/Impl/Usuario_Service_Impl.java:49-64 | unknown id fails; a different held address is refused; otherwise the merged row with `actualizadoEn = now` |
| `UsuarioService.UsuarioStore.DeleteUsuario` | src/main/java/org/example/restecommercehardware/Service/Impl/Usuario_Service_Impl.java:68-73 | unknown id fails; otherwise the row goes |
| `ResenaService.ValidarCalificacion` | src/main/java/org/example/restecommercehardware/Service/Impl/Resena_Service_Impl.java:81-85 | a rating passes iff it is null or within 0..5; otherwise the range message |
| `ResenaService.ActualizarCampos` | src/main/java/org/example/restecommercehardware/Service/Impl/Resena_Service_Impl.java:87-100 | each non-null field replaces the stored one; id and instant untouched |
| `ResenaService.ValidatedUpdateKeepsRange` | src/main/java/org/example/restecommercehardware/Service/Impl/Resena_Service_Impl.java:63-66 | an update that passed the rating check keeps the rating in 0..5 |
| `ResenaService.ResenaStore.CreateResena` | src/main/java/org/example/restecommercehardware/Service/Impl/Resena_Service_Impl.java:52-56 | a rating outside 0..5 is refused; otherwise stored under the next id; every stored rating stays in range |
| `ResenaService.ResenaStore.UpdateResena` | src/main/java/org/example/restecommercehardware/Service/Impl/Resena_Service_Impl.java:60-70 | unknown id fails; an out-of-range rating is refused; otherwise the merged row |
| `ResenaService.ResenaStore.DeleteResena` | src/main/java/org/example/restecommercehardware/Service/Impl/Resena_Service_Impl.java:74-79 | unknown id fails; otherwise the row goes |
| `PedidoService.NuevoPedido` | src/main/java/org/example/restecommercehardware/Service/Impl/Pedido_Service_Impl.java:51-57 | a new order is dated `now` and a null status becomes "pendiente"; everything else is kept |
| `PedidoService.ActualizarCampos` | src/main/java/org/example/restecommercehardware/Service/Impl/Pedido_Service_Impl.java:78-97 | each of the six non-null fields replaces the stored one; id, user and date never change |
| `PedidoService.UpdateKeepsEstado` | src/main/java/org/example/restecommercehardware/Service/Impl/Pedido_Service_Impl.java:78-97 | an update never clears a status |
| `PedidoService.PedidoStore.CreatePedido` | src/main/java/org/example/restecommercehardware/Service/Impl/Pedido_Service_Impl.java:51-57 | the order is stored under the next id as `NuevoPedido` describes; every stored order has a status |
| `PedidoService.PedidoStore.UpdatePedido` | src/main/java/org/example/restecommercehardware/Service/Impl/Pedido_Service_Impl.java:61-67 | unknown id fails; otherwise the merged row |
| `PedidoService.PedidoStore.DeletePedido` | src/main/java/org/example/restecommercehardware/Service/Impl/Pedido_Service_Impl.java:71-76 | unknown id fails; otherwise the row goes |
| `CategoriaService.ActualizarCampos` | src/main/java/org/example/restecommercehardware/Service/Impl/Categoria_Service_Impl.java:74-81 | a non-null name or description replaces the stored one |
| `CategoriaService.ValidarNombreUnico` | src/main/java/org/example/restecommercehardware/Service/Impl/Categoria_Service_Impl.java:68-72 | a name is refused iff some category holds it |
| `CategoriaService.FreshNameKeepsUnique` | src/main/java/org/example/restecommercehardware/Service/Impl/Categoria_Service_Impl.java:39-53 | writing a category whose name is its own or unheld keeps names unique |
| `CategoriaService.CategoriaStore.CreateCategoria` | src/main/java/org/example/restecommercehardware/Service/Impl/Categoria_Service_Impl.java:39-42 | a held name is refused; otherwise stored under the next id |
| `CategoriaService.CategoriaStore.UpdateCategoria` | src/main/java/org/example/restecommercehardware/Service/Impl/Categoria_Service_Impl.java:46-57 | unknown id fails; a different held name is refused; otherwise the merged row |
| `CategoriaService.CategoriaStore.DeleteCategoria` | src/main/java/org/example/restecommercehardware/Service/Impl/Categoria_Service_Impl.java:61-66 | unknown id fails; otherwise the row goes |
| `MarcaService.ActualizarCampos` | src/main/java/org/example/restecommercehardware/Service/Impl/Marca_Service_Impl.java:74-78 | a non-null name replaces the stored one |
| `MarcaService.ValidarNombreUnico` | src/main/java/org/example/restecommercehardware/Service/Impl/Marca_Service_Impl.java:68-72 | a name is refused iff some brand holds it |
| `MarcaService.FreshNameKeepsUnique` | src/main/java/org/example/restecommercehardware/Service/Impl/Marca_Service_Impl.java:39-53 | writing a brand whose name is its own or unheld keeps names unique |
| `MarcaService.MarcaStore.CreateMarca` | src/main/java/org/example/restecommercehardware/Service/Impl/Marca_Service_Impl.java:39-42 | a held name is refused; otherwise stored under the next id |
| `MarcaService.MarcaStore.UpdateMarca` | src/main/java/org/example/restecommercehardware/Service/Impl/Marca_Service_Impl.java:46-57 | unknown id fails; a different held name is refused; otherwise the merged row |
| `MarcaService.MarcaStore.DeleteMarca` | src/main/java/org/example/restecommercehardware/Service/Impl/Marca_Service_Impl.java:61-66 | unknown id fails; otherwise the row goes |
| `CarritoService.CarritoStore.CreateCarrito` | src/main/java/org/example/restecommercehardware/Service/Impl/Carrito_Service_Impl.java:40-43 | the cart is stored under the next id |
| `CarritoService.CarritoStore.UpdateCarrito` | src/main/java/org/example/restecommercehardware/Service/Impl/Carrito_Service_Impl.java:47-55 | unknown id fails; otherwise a supplied user replaces the stored one |
| `CarritoService.CarritoStore.DeleteCarrito` | src/main/java/org/example/restecommercehardware/Service/Impl/Carrito_Service_Impl.java:59-64 | unknown id fails; otherwise the row goes |
| `ItemsPedidoService.ActualizarCampos` | src/main/java/org/example/restecommercehardware/Service/Impl/ItemsPedido_Service_Impl.java:68-81 | each non-null field of the line replaces the stored one |
| `ItemsPedidoService.FullRequestReplaces` | src/main/java/org/example/restecommercehardware/Service/Impl/ItemsPedido_Service_Impl.java:68-81 | a request with every field makes the line equal to the request under the stored id |
| `ItemsPedidoService.ItemsPedidoStore.CreateItemPedido` | src/main/java/org/example/restecommercehardware/Service/Impl/ItemsPedido_Service_Impl.java:45-47 | the line is stored under the next id |
| `ItemsPedidoService.ItemsPedidoStore.UpdateItemPedido` | src/main/java/org/example/restecommercehardware/Service/Impl/ItemsPedido_Service_Impl.java:51-57 | unknown id fails; otherwise the merged row |
| `ItemsPedidoService.ItemsPedidoStore.DeleteItemPedido` | src/main/java/org/example/restecommercehardware/Service/Impl/ItemsPedido_Service_Impl.java:61-66 | unknown id fails; otherwise the row goes |
| `ItemsCarritoService.CantidadInicial` | src/main/java/org/example/restecommercehardware/Service/Impl/ItemsCarrito_Service_Impl.java:103-105 | a missing or non-positive quantity becomes 1, any other is kept; the result is at least 1 |
| `ItemsCarritoService.PortadaIsLowestOrden` | src/main/java/org/example/restecommercehardware/Service/Impl/ItemsCarrito_Service_Impl.java:89-94 | the cover is absent iff the product has no image, otherwise the path of one of its images with the lowest position |
| `ItemsCarritoService.Portada` | src/main/java/org/example/restecommercehardware/Service/Impl/ItemsCarrito_Service_Impl.java:88-93 | no cover iff the product has no image; otherwise the path of the first image of the position-ordered listing |
| `ItemsCarritoService.ToDto` | src/main/java/org/example/restecommercehardware/Service/Impl/ItemsCarrito_Service_Impl.java:67-95 | the DTO copies line id, cart id, quantity, product id and price, its subtotal is price × quantity, and it has no cover iff the product has no image |
| `ItemsCarritoService.ConImagen` | src/main/java/org/example/restecommercehardware/Service/Impl/ItemsCarrito_Service_Impl.java:67-97 | one DTO per cart line, in order, iff every line's product exists; a missing product is a null dereference |
| `ItemsCarritoService.SubtotalIsPriceTimesQuantity` | src/main/java/org/example/restecommercehardware/Service/Impl/ItemsCarrito_Service_Impl.java:85-86 | every DTO's subtotal is the product price times the quantity |
| `ItemsCarritoService.ActualizarCampos` | src/main/java/org/example/restecommercehardware/Service/Impl/ItemsCarrito_Service_Impl.java:128-138 | each non-null field replaces the stored one |
| `ItemsCarritoService.LinesOfSpec` | src/main/java/org/example/restecommercehardware/Service/Impl/ItemsCarrito_Service_Impl.java:45-50 | a row is among the cart's lines iff it is stored with that cart id |
| `ItemsCarritoService.LinesOf` | src/main/java/org/example/restecommercehardware/Service/Impl/ItemsCarrito_Service_Impl.java:45-50 | every listed line is a stored row of that cart |
| `ItemsCarritoService.ItemsCarritoStore.GetItemsByCarritoConImagen` | src/main/java/org/example/restecommercehardware/Service/Impl/ItemsCarrito_Service_Impl.java:61-98 | an unknown cart fails; otherwise the DTOs of exactly its lines |
| `ItemsCarritoService.ItemsCarritoStore.CreateItemCarrito` | src/main/java/org/example/restecommercehardware/Service/Impl/ItemsCarrito_Service_Impl.java:102-107 | the line is stored under the next id with its quantity clamped to at least 1 |
| `ItemsCarritoService.ItemsCarritoStore.UpdateItemCarrito` | src/main/java/org/example/restecommercehardware/Service/Impl/ItemsCarrito_Service_Impl.java:111-117 | unknown id fails; otherwise the merged row |
| `ItemsCarritoService.ItemsCarritoStore.DeleteItemCarrito` | src/main/java/org/example/restecommercehardware/Service/Impl/ItemsCarrito_Service_Impl.java:121-126 | unknown id fails; otherwise the row goes |
| `Cart.TotalIsSelectedSubtotals` | src/app/features/catalog/components/carrito.component/carrito.component.ts:42-49 | the total is the sum of the subtotals of exactly the selected lines |
| `Cart.Total` | src/app/features/catalog/components/carrito.component/carrito.component.ts:42-49 | with nothing selected the total is 0, and with non-negative subtotals it is never negative |
| `Cart.SelectedCount` | src/app/features/catalog/components/carrito.component/carrito.component.ts:52-54 | the count is the number of selected lines |
| `Cart.AllSelectedIffCountFull` | src/app/features/catalog/components/carrito.component/carrito.component.ts:57-59 | all selected iff the cart is non-empty and the count equals its size |
| `Cart.ToggleItem` | src/app/features/catalog/components/carrito.component/carrito.component.ts:121-125 | the lines with the id flip selection; nothing else changes |
| `Cart.ToggleItemTwice` | src/app/features/catalog/components/carrito.component/carrito.component.ts:121-125 | toggling twice restores the selection |
| `Cart.ToggleAll` | src/app/features/catalog/components/carrito.component/carrito.component.ts:130-135 | every line gets the negation of the previous all-selected flag |
| `Cart.ToggleAllFlips` | src/app/features/catalog/components/carrito.component/carrito.component.ts:130-135 | on a non-empty cart select-all clears a fully selected cart and otherwise selects all |
| `Cart.ToggleAllTwice` | src/app/features/catalog/components/carrito.component/carrito.component.ts:130-135 | toggling all twice leaves every line at the original all-selected value |
| `Cart.UpdateQuantity` | src/app/features/catalog/components/carrito.component/carrito.component.ts:150-172 | below 1 or a failed call changes nothing; otherwise the lines with the id get the quantity and price × quantity as subtotal |
| `Cart.UpdateQuantityKeepsPrices` | src/app/features/catalog/components/carrito.component/carrito.component.ts:157-165 | subtotal = price × quantity is preserved on every line |
| `Cart.QuantityStaysInBounds` | src/app/features/catalog/components/carrito.component/carrito.component.ts:177-191 | quantities stay within 1 and the stock (0 counting as 999); at the bounds the buttons do nothing |
| `Cart.IncreaseQuantity` | src/app/features/catalog/components/carrito.component/carrito.component.ts:177-182 | the cart keeps its length, lines with other ids are untouched, and at the stock limit or on a failed call nothing changes; the stock limit is `Cart.MaxStock`, i.e. `item.stockProducto || 999` |
| `Cart.DecreaseQuantity` | src/app/features/catalog/components/carrito.component/carrito.component.ts:187-191 | the cart keeps its length, lines with other ids are untouched, and at quantity 1 or on a failed call nothing changes |
| `Cart.RemoveItem` | src/app/features/catalog/components/carrito.component/carrito.component.ts:196-212 | only a confirmed, successful removal drops the lines with the id; nothing is added |
| `Cart.RemoveItemKeepsOthers` | src/app/features/catalog/components/carrito.component/carrito.component.ts:205 | every line with another id survives removal |
| `Cart.CheckoutStore.constructor` | src/app/features/products/services/carrito-state.service.ts:12 | the shared store starts empty |
| `Cart.CheckoutStore.SetSelectedItems` | src/app/features/products/services/carrito-state.service.ts:17-20 | the store holds exactly the given lines |
| `Cart.CheckoutStore.GetSelectedItems` | src/app/features/products/services/carrito-state.service.ts:25-27 | returns the lines stored |
| `Cart.CheckoutStore.ClearSelectedItems` | src/app/features/products/services/carrito-state.service.ts:32-34 | the store is empty |
| `Cart.CheckoutStore.HasSelectedItems` | src/app/features/products/services/carrito-state.service.ts:39-41 | true iff the store is non-empty |
| `Cart.StoreRoundTrip` | src/app/features/products/services/carrito-state.service.ts:17-41 | after two sets, the store returns the second list and reports non-empty iff it is |
| `Cart.CartPage.constructor` | src/app/features/catalog/components/carrito.component/carrito.component.ts:72-106 | no cart shows no lines; otherwise every loaded line is shown selected, and all are selected iff there is one |
| `Cart.CartPage.ClearCarrito` | src/app/features/catalog/components/carrito.component/carrito.component.ts:217-236 | only a confirmed, successful clear of an existing cart empties the lines and forgets the cart |
| `Cart.CartPage.ToggleItemSelection` | src/app/features/catalog/components/carrito.component/carrito.component.ts:121-125 | the lines become `ToggleItem` of the old lines |
| `Cart.CartPage.ToggleAllSelection` | src/app/features/catalog/components/carrito.component/carrito.component.ts:130-135 | the lines become `ToggleAll` of the old lines |
| `Cart.CartPage.Increase` | src/app/features/catalog/components/carrito.component/carrito.component.ts:177-182 | the lines become `IncreaseQuantity` of the old lines |
| `Cart.CartPage.Decrease` | src/app/features/catalog/components/carrito.component/carrito.component.ts:187-191 | the lines become `DecreaseQuantity` of the old lines |
| `Cart.CartPage.Remove` | src/app/features/catalog/components/carrito.component/carrito.component.ts:196-212 | the lines become `RemoveItem` of the old lines |
| `Cart.CartPage.ProceedToCheckout` | src/app/features/catalog/components/carrito.component/carrito.component.ts:241-254 | with nothing selected nothing is stored and the page stays; otherwise exactly the selected lines are stored and the page moves to payment |
| `Payment.PaymentTotal` | src/app/features/catalog/components/pago.component/pago.component.ts:70-86 | the total charged is the subtotal (shipping is free) |
| `Payment.PaymentSubtotal` | src/app/features/catalog/components/pago.component/pago.component.ts:70-72 | an empty page has subtotal 0, and non-negative line subtotals give a non-negative subtotal |
| `Payment.CheckoutChargesCartTotal` | src/app/features/catalog/components/pago.component/pago.component.ts:70-86 | the payment page charges the total the cart page showed for the selected lines |
| `Payment.StripWhitespace` | src/app/features/catalog/components/pago.component/pago.component.ts:206 | no whitespace remains and every other character occurs exactly as often as in the input |
| `Payment.StripWhitespaceInOrder` | src/app/features/catalog/components/pago.component/pago.component.ts:206 | the removal goes character by character and keeps order: stripping a concatenation strips each part, and one character is kept iff it is not whitespace |
| `Payment.Groups` | src/app/features/catalog/components/pago.component/pago.component.ts:212 | grouping by four adds one space per full group after the first |
| `Payment.FormatCardNumber` | src/app/features/catalog/components/pago.component/pago.component.ts:204-215 | the stored number is the whitespace-free input cut to its first 16 characters; the shown text is that number in groups of four |
| `Payment.GroupsStrip` | src/app/features/catalog/components/pago.component/pago.component.ts:212 | removing the spaces from the grouped text gives the number back |
| `Payment.FormatCardNumberIdempotent` | src/app/features/catalog/components/pago.component/pago.component.ts:204-215 | typing the shown text again gives the same stored and shown values |
| `Payment.Digits` | src/app/features/catalog/components/pago.component/pago.component.ts:222 | only digits remain, and the result is no longer than the input |
| `Payment.DigitsInOrder` | src/app/features/catalog/components/pago.component/pago.component.ts:222 | the removal goes character by character and keeps order, and every digit occurs exactly as often as in the input |
| `Payment.FormatExpiryDate` | src/app/features/catalog/components/pago.component/pago.component.ts:220-230 | at most five characters; fewer than two digits are kept as they are |
| `Payment.FormatExpiryDateShape` | src/app/features/catalog/components/pago.component/pago.component.ts:224-226 | from two digits on: two digits, '/', at most two more digits |
| `Payment.FormatExpiryDateIdempotent` | src/app/features/catalog/components/pago.component/pago.component.ts:220-230 | formatting a formatted date changes nothing |
| `Payment.FormattedDateIsFixed` | src/app/features/catalog/components/pago.component/pago.component.ts:220-230 | "MM/YY"-shaped input is left as it is |
| `Payment.CheckPayment` | src/app/features/catalog/components/pago.component/pago.component.ts:252-271 | the payment proceeds iff shipping is valid, the card is valid when paying by card, and there are products; the first failing check decides the reason |
| `Payment.OrderLines` | src/app/features/catalog/components/pago.component/pago.component.ts:299-311 | one order line per cart line, in order, with quantity and unit price copied |
| `Payment.OrderLinesAddUp` | src/app/features/catalog/components/pago.component/pago.component.ts:281-311 | when subtotals are price × quantity the order lines add up to the amount charged |
| `Payment.PaymentPage.constructor` | src/app/features/catalog/components/pago.component/pago.component.ts:135-191 | `loadCartItems`: the page holds the shared store's lines when there are any, otherwise the lines from the backend; it pays by card by default and is not processing |
| `Payment.PaymentPage.SelectPaymentMethod` | src/app/features/catalog/components/pago.component/pago.component.ts:197-199 | the method changes and nothing else |
| `Payment.PaymentPage.ConfirmPayment` | src/app/features/catalog/components/pago.component/pago.component.ts:235-333 | nothing while processing or unconfirmed; the checks stop it; otherwise a "PENDIENTE" order for the user with the page total and the shipping address, city, country and zip code, and its lines; an order that is not created or whose lines are not all saved ends in the failure outcome carrying that same order; on full success the store is cleared and the page goes to the catalog |
| `ProductDetails.GoesFirstIsStrictWeak` | src/app/features/products/components/product-details.component/product-details.component.ts:62-66 | the gallery comparator is a strict weak order whose ties are the images with the same principal flag and position |
| `ProductDetails.AllImages` | src/app/features/products/components/product-details.component/product-details.component.ts:50-69 | without images: the cover or the placeholder; with images: one URL per image |
| `ProductDetails.GalleryOrder` | src/app/features/products/components/product-details.component/product-details.component.ts:61-68 | with images the gallery is every image once, principal first, then by position |
| `ProductDetails.GalleryStable` | src/app/features/products/components/product-details.component/product-details.component.ts:62-66 | images with the same principal flag and position keep the backend's order in the gallery |
| `ProductDetails.ProductPage.constructor` | src/app/features/products/components/product-details.component/product-details.component.ts:29-36 | no product, no images, quantity 1 |
| `ProductDetails.ProductPage.LoadProduct` | src/app/features/products/components/product-details.component/product-details.component.ts:87-108 | product and images replaced, quantity kept |
| `ProductDetails.ProductPage.Gallery` | src/app/features/products/components/product-details.component/product-details.component.ts:50-69 | the gallery always has at least one URL |
| `ProductDetails.ProductPage.IncreaseQuantity` | src/app/features/products/components/product-details.component/product-details.component.ts:117-125 | one more only while below the stock |
| `ProductDetails.ProductPage.DecreaseQuantity` | src/app/features/products/components/product-details.component/product-details.component.ts:127-134 | one fewer only while above 1 |
| `ProductDetails.ProductPage.AddToCart` | src/app/features/products/components/product-details.component/product-details.component.ts:136-213 | no product, no stock, not logged in and not enough stock stop before any request, in that order; a user id of 0 stops with an error; otherwise the cart is found or created and the line is added with the chosen quantity, `Added` exactly when the service adds it and `AddFailed` otherwise; the quantity resets to 1 only after success |
| `ProductReview.CalculateStats` | src/app/features/products/components/product-review.component/product-review.component.ts:78-105 | no statistics iff no reviews; otherwise the count and the rating sum |
| `ProductReview.StarCountsPartition` | src/app/features/products/components/product-review.component/product-review.component.ts:88-95 | each review falls under exactly one star level or off the scale |
| `ProductReview.DistributionSumsToTotal` | src/app/features/products/components/product-review.component/product-review.component.ts:84-101 | with ratings in 1..5 the five star counts add up to the total |
| `ProductReview.GetStarCount` | src/app/features/products/components/product-review.component/product-review.component.ts:273-279 | 0 without statistics or for a level outside 1..5 |
| `ProductReview.StarCountIsCount` | src/app/features/products/components/product-review.component/product-review.component.ts:273-279 | the count shown for a level is the number of reviews with that rating |
| `ProductReview.PrependReview` | src/app/features/products/components/product-review.component/product-review.component.ts:158-163 | a new review first adds one to the total, its rating to the sum, one to its own level only |
| `ProductReview.StarsArray` | src/app/features/products/components/product-review.component/product-review.component.ts:190-192 | five flags |
| `ProductReview.CountLeadingFlags` | src/app/features/products/components/product-review.component/product-review.component.ts:190-192 | flags set on a prefix count its length, clipped |
| `ProductReview.StarsArrayFilled` | src/app/features/products/components/product-review.component/product-review.component.ts:190-192 | the row shows the rating clipped to 0..5 stars, filled ones first |
| `ProductReview.GetUserInitials` | src/app/features/products/components/product-review.component/product-review.component.ts:248-260 | the author's initials when the review has an author, else the upper-cased first letters of the logged-in user's first and last names, else "U" |
| `ProductReview.Completed` | src/app/features/products/components/product-review.component/product-review.component.ts:144-156 | the answer keeps its id, product, rating and comment; an answer without an author or with an empty author name gets the current user's id and names; an answer without a date gets `now`; otherwise both are kept |
| `ProductReview.ReviewSection.constructor` | src/app/features/products/components/product-review.component/product-review.component.ts:23-29 | no reviews, form closed, not submitting |
| `ProductReview.ReviewSection.LoadResenas` | src/app/features/products/components/product-review.component/product-review.component.ts:56-76 | a loaded list replaces the old one and the statistics follow; a failure keeps it |
| `ProductReview.ReviewSection.ToggleForm` | src/app/features/products/components/product-review.component/product-review.component.ts:107-116 | only a logged-in user toggles the form |
| `ProductReview.ReviewSection.SubmitReview` | src/app/features/products/components/product-review.component/product-review.component.ts:123-178 | nothing is sent for an invalid form or no user; a created review goes first and the statistics describe the new list |
| `Catalog.BeforeIsStrict` | src/app/features/catalog/components/catalog.component/catalog.component.ts:64-82 | each sort comparator is a strict order |
| `Catalog.Before` | src/app/features/catalog/components/catalog.component/catalog.component.ts:64-81 | every sort comparator is asymmetric: it never orders a before b and b before a |
| `Catalog.FilteredProducts` | src/app/features/catalog/components/catalog.component/catalog.component.ts:39-85 | the shown list takes each product at most as often as the full list |
| `Catalog.CategoryStage` | src/app/features/catalog/components/catalog.component/catalog.component.ts:43-45 | with a category chosen, exactly the products of that category are kept; otherwise all |
| `Catalog.BrandStage` | src/app/features/catalog/components/catalog.component/catalog.component.ts:48-50 | with a brand chosen, exactly the products of that brand are kept; otherwise all |
| `Catalog.SearchStage` | src/app/features/catalog/components/catalog.component/catalog.component.ts:53-61 | with a non-empty lower-cased term, exactly the products whose name, description, category or brand contains it are kept; otherwise all; the match is the predicate `Catalog.MatchesSearch`, the search lambda of lines 55-60 |
| `Catalog.NarrowedSpec` | src/app/features/catalog/components/catalog.component/catalog.component.ts:40-61 | the three filters keep exactly the products passing every active filter |
| `Catalog.FilteredProductsSpec` | src/app/features/catalog/components/catalog.component/catalog.component.ts:39-85 | the catalog shows exactly the matching products, each at most as often as loaded, nothing else |
| `Catalog.FilteredProductsOrdered` | src/app/features/catalog/components/catalog.component/catalog.component.ts:63-84 | each sort option orders by its key, ascending or descending |
| `Catalog.Find` | src/app/features/catalog/components/catalog.component/catalog.component.ts:176-189 | found iff some entry has the id, and the entry found has it |
| `Catalog.FindIsFirst` | src/app/features/catalog/components/catalog.component/catalog.component.ts:176-189 | the entry found is the first with the id |
| `Catalog.SelectedName` | src/app/features/catalog/components/catalog.component/catalog.component.ts:176-189 | empty when nothing is selected or nothing matches; otherwise the name of the first entry with the selected id |
| `Catalog.CatalogPage.GetSelectedCategoryName` | src/app/features/catalog/components/catalog.component/catalog.component.ts:176-180 | empty without a selected category; otherwise the name of the first category with that id |
| `Catalog.CatalogPage.GetSelectedBrandName` | src/app/features/catalog/components/catalog.component/catalog.component.ts:185-189 | empty without a selected brand; otherwise the name of the first brand with that id |
| `Catalog.CatalogPage.constructor` | src/app/features/catalog/components/catalog.component/catalog.component.ts:25-36 | no filter, name order, empty lists |
| `Catalog.CatalogPage.LoadAll` | src/app/features/catalog/components/catalog.component/catalog.component.ts:94-136 | each list is replaced when its request succeeds; the controls are kept |
| `Catalog.CatalogPage.FilterByCategory` | src/app/features/catalog/components/catalog.component/catalog.component.ts:138-143 | only the category changes |
| `Catalog.CatalogPage.FilterByBrand` | src/app/features/catalog/components/catalog.component/catalog.component.ts:145-150 | only the brand changes |
| `Catalog.CatalogPage.OnSearchChange` | src/app/features/catalog/components/catalog.component/catalog.component.ts:152-157 | only the search term changes |
| `Catalog.CatalogPage.OnSortChange` | src/app/features/catalog/components/catalog.component/catalog.component.ts:159-164 | only the sort option changes |
| `Catalog.CatalogPage.ClearFilters` | src/app/features/catalog/components/catalog.component/catalog.component.ts:166-171 | all controls reset; the shown list becomes all products by name |
| `UserAdmin.FilteredUsersIsOneFilter` | src/app/features/admin/components/user/user-admin.component/user-admin.component.ts:52-73 | the filtered list is the users passing both filters, in order; the search match is the predicate `UserAdmin.MatchesSearch`, the lambda of lines 58-62 |
| `UserAdmin.FilteredUsers` | src/app/features/admin/components/user/user-admin.component/user-admin.component.ts:52-73 | the filtered list is no longer than the loaded one and holds only loaded users; with no term and all roles it is the loaded list |
| `UserAdmin.SliceIndex` | src/app/features/admin/components/user/user-admin.component/user-admin.component.ts:75-78 | slice indices count from the end when negative and are clamped |
| `UserAdmin.Slice` | src/app/features/admin/components/user/user-admin.component/user-admin.component.ts:75-78 | `slice` returns the clamped range |
| `UserAdmin.Paginated` | src/app/features/admin/components/user/user-admin.component/user-admin.component.ts:75-78 | a page holds at most ten users |
| `UserAdmin.TotalPages` | src/app/features/admin/components/user/user-admin.component/user-admin.component.ts:80-82 | the page count is the ceiling of n / 10 |
| `UserAdmin.PageContents` | src/app/features/admin/components/user/user-admin.component/user-admin.component.ts:75-82 | the user at position k is on page k / 10 + 1 at place k % 10 |
| `UserAdmin.PagesInRange` | src/app/features/admin/components/user/user-admin.component/user-admin.component.ts:75-88 | every page from 1 to the page count is non-empty, past it empty |
| `UserAdmin.RoleBadgeClass` | src/app/features/admin/components/user/user-admin.component/user-admin.component.ts:138-147 | admin purple, user blue, anything else (or no role) gray, by upper-cased role |
| `UserAdmin.RoleBadgeIgnoresCase` | src/app/features/admin/components/user/user-admin.component/user-admin.component.ts:138-147 | the badge ignores letter case |
| `UserAdmin.RoleCountsBounded` | src/app/features/admin/components/user/user-admin.component/user-admin.component.ts:159-165 | admins and users together never exceed the total |
| `UserAdmin.UserAdminPage.constructor` | src/app/features/admin/components/user/user-admin.component/user-admin.component.ts:19-30 | empty list, page 1, no filter, no dialog |
| `UserAdmin.UserAdminPage.PaginatedUsers` | src/app/features/admin/components/user/user-admin.component/user-admin.component.ts:75-78 | the page shown is the current page of the filtered users |
| `UserAdmin.UserAdminPage.AdminCount` | src/app/features/admin/components/user/user-admin.component/user-admin.component.ts:159-161 | the number of administrators |
| `UserAdmin.UserAdminPage.UserCount` | src/app/features/admin/components/user/user-admin.component/user-admin.component.ts:163-165 | the number of plain users |
| `UserAdmin.UserAdminPage.LoadUsers` | src/app/features/admin/components/user/user-admin.component/user-admin.component.ts:36-50 | a loaded list replaces the old one; a failure keeps it |
| `UserAdmin.UserAdminPage.GoToPage` | src/app/features/admin/components/user/user-admin.component/user-admin.component.ts:84-88 | only a page from 1 to the page count is taken |
| `UserAdmin.UserAdminPage.OnSearchChange` | src/app/features/admin/components/user/user-admin.component/user-admin.component.ts:90-94 | the term is set and the page goes back to 1 |
| `UserAdmin.UserAdminPage.OnRoleFilterChange` | src/app/features/admin/components/user/user-admin.component/user-admin.component.ts:96-100 | the role is set and the page goes back to 1 |
| `UserAdmin.UserAdminPage.ConfirmDelete` | src/app/features/admin/components/user/user-admin.component/user-admin.component.ts:110-113 | the dialog opens for the user |
| `UserAdmin.UserAdminPage.CancelDelete` | src/app/features/admin/components/user/user-admin.component/user-admin.component.ts:115-118 | the dialog closes with no user |
| `UserAdmin.UserAdminPage.DeleteUser` | src/app/features/admin/components/user/user-admin.component/user-admin.component.ts:120-136 | the selected user's id is sent; on success the dialog closes and the list is reloaded; on failure nothing changes |
| `Dashboard.Cards` | src/app/features/admin/components/dashboard/dashboard.component/dashboard.component.ts:37-102 | six cards in the dashboard's order |
| `Dashboard.CardsCountAndSum` | src/app/features/admin/components/dashboard/dashboard.component/dashboard.component.ts:37-102 | the sold-out card counts stock 0, the stock card sums stock, the value card's value is the sum of price × stock over the products |
| `Dashboard.AllSoldOutIffNoStock` | src/app/features/admin/components/dashboard/dashboard.component/dashboard.component.ts:37-102 | with no negative stock, all sold out iff total stock is 0 |
| `Dashboard.InventoryValueNonNegative` | src/app/features/admin/components/dashboard/dashboard.component/dashboard.component.ts:37-102 | with no negative price or stock, the inventory value is not negative |
| `Dashboard.DashboardPage.constructor` | src/app/features/admin/components/dashboard/dashboard.component/dashboard.component.ts:30-31 | no cards, loading |
| `Dashboard.DashboardPage.LoadDashboardData` | src/app/features/admin/components/dashboard/dashboard.component/dashboard.component.ts:37-102 | loaded data gives the six cards; either way loading ends |
| `OrderViews.FirstPrincipal` | src/app/features/admin/components/pedidos/pedidos.ts:87 | the first principal image, absent iff there is none |
| `OrderViews.DetailImage` | src/app/features/admin/components/pedidos/pedidos.ts:81-97 | the first principal image, else the first image, else the placeholder |
| `OrderViews.DetailImagePrefersPrincipal` | src/app/features/admin/components/pedidos/pedidos.ts:87-90 | a principal image with a path beats every other image |
| `OrderViews.FirstPrincipalIsFirst` | src/app/features/admin/components/pedidos/pedidos.ts:87 | the image found is the first principal one |
| `OrderViews.WithImages` | src/app/features/admin/components/pedidos/pedidos.ts:81-99 | one detail line per order line, in order, with its image |
| `OrdersAdmin.NewerIsStrictWeak` | src/app/features/admin/components/pedidos/pedidos.ts:55-57 | newer-first is a strict weak order whose ties are the orders of the same date; `OrdersAdmin.Newer` is the comparator `fecha(b) - fecha(a)` read as "a goes first" |
| `OrdersAdmin.NewestFirst` | src/app/features/admin/components/pedidos/pedidos.ts:55-57 | the sorted list is a permutation of the loaded one |
| `OrdersAdmin.NewestFirstOrdered` | src/app/features/admin/components/pedidos/pedidos.ts:55-57 | the list is ordered newest first |
| `OrdersAdmin.NewestFirstStable` | src/app/features/admin/components/pedidos/pedidos.ts:55-57 | orders of the same date keep the order the backend sent them in |
| `OrdersAdmin.SetEstado` | src/app/features/admin/components/pedidos/pedidos.ts:126-128 | orders with the id take the new status; others unchanged |
| `OrdersAdmin.SetEstadoLastWins` | src/app/features/admin/components/pedidos/pedidos.ts:126-128 | two changes leave only the second status |
| `OrdersAdmin.EstadoClassIgnoresCase` | src/app/features/admin/components/pedidos/pedidos.ts:196-206 | the colour ignores letter case and only the five statuses get one |
| `OrdersAdmin.EstadoClass` | src/app/features/admin/components/pedidos/pedidos.ts:196-206 | the gray default is given exactly to statuses whose upper-case form is none of the five known statuses |
| `OrdersAdmin.AdminOrdersPage.constructor` | src/app/features/admin/components/pedidos/pedidos.ts:26-32 | no orders, nothing selected |
| `OrdersAdmin.AdminOrdersPage.LoadPedidos` | src/app/features/admin/components/pedidos/pedidos.ts:50-65 | a loaded list is shown newest first; a failure keeps the list |
| `OrdersAdmin.AdminOrdersPage.VerDetalle` | src/app/features/admin/components/pedidos/pedidos.ts:70-108 | the order is selected, the modal opens, and the lines get their images |
| `OrdersAdmin.AdminOrdersPage.CambiarEstado` | src/app/features/admin/components/pedidos/pedidos.ts:113-142 | nothing unless confirmed; a successful update changes the list and the open detail, and editing ends |
| `OrdersAdmin.AdminOrdersPage.CerrarDetalles` | src/app/features/admin/components/pedidos/pedidos.ts:147-151 | the modal closes with no order and no lines |
| `OrdersAdmin.AdminOrdersPage.ActivarEdicionEstado` | src/app/features/admin/components/pedidos/pedidos.ts:211-213 | the order's status becomes editable |
| `OrdersAdmin.AdminOrdersPage.CancelarEdicionEstado` | src/app/features/admin/components/pedidos/pedidos.ts:218-220 | no status is being edited |
| `OrdersCustomer.SubtotalMatchesCheckout` | src/app/features/cart/components/pedidos.component/pedidos.component.ts:155-160 | the detail subtotal of the lines the checkout created is the amount charged |
| `OrdersCustomer.SameAmounts` | src/app/features/cart/components/pedidos.component/pedidos.component.ts:155-160 | lines with the same quantities and prices give the same subtotal |
| `OrdersCustomer.PendienteWins` | src/app/features/cart/components/pedidos.component/pedidos.component.ts:185-193 | a status mentioning "pendiente" is yellow whatever else it mentions |
| `OrdersCustomer.EstadoClass` | src/app/features/cart/components/pedidos.component/pedidos.component.ts:185-193 | the gray default is given exactly when the lower-cased status contains none of "pendiente", "procesando", "enviado", "entregado", "cancelado" |
| `OrdersCustomer.SubtotalDetalles` | src/app/features/cart/components/pedidos.component/pedidos.component.ts:155-160 | no lines give 0, and non-negative amounts give a non-negative subtotal |
| `OrdersCustomer.CustomerOrdersPage.Subtotal` | src/app/features/cart/components/pedidos.component/pedidos.component.ts:155-160 | the page's subtotal is `SubtotalDetalles` of the open order's lines, 0 when it has none |
| `OrdersCustomer.CustomerOrdersPage.constructor` | src/app/features/cart/components/pedidos.component/pedidos.component.ts:28-34 | no orders, nothing selected |
| `OrdersCustomer.CustomerOrdersPage.Init` | src/app/features/cart/components/pedidos.component/pedidos.component.ts:36-69 | without a user nothing is requested; with one, that user's orders are requested and shown |
| `OrdersCustomer.CustomerOrdersPage.VerDetalle` | src/app/features/cart/components/pedidos.component/pedidos.component.ts:71-114 | the order is selected, the modal opens, and the lines get their images |
| `OrdersCustomer.CustomerOrdersPage.CerrarDetalles` | src/app/features/cart/components/pedidos.component/pedidos.component.ts:116-123 | the modal closes with no order and no lines |
| `Banner.Next` | src/app/home/Banner/banner.component/banner.component.ts:56-60 | after the last slide comes the first, otherwise the next |
| `Banner.Prev` | src/app/home/Banner/banner.component/banner.component.ts:62-66 | before the first slide comes the last, otherwise the previous |
| `Banner.PrevUndoesNext` | src/app/home/Banner/banner.component/banner.component.ts:56-66 | previous undoes next and next undoes previous |
| `Banner.AdvanceWithinTurn` | src/app/home/Banner/banner.component/banner.component.ts:44-60 | k ticks within a turn land k slides on, wrapping once |
| `Banner.FullTurn` | src/app/home/Banner/banner.component/banner.component.ts:44-60 | a full turn of ticks returns to the start |
| `Banner.PastTheEndKeepsClimbing` | src/app/home/Banner/banner.component/banner.component.ts:56-72 | a slide index past the end is never wrapped by next |
| `Banner.Carousel.constructor` | src/app/home/Banner/banner.component/banner.component.ts:20-42 | the first slide, autoplay running |
| `Banner.Carousel.NextSlide` | src/app/home/Banner/banner.component/banner.component.ts:56-60 | the slide becomes `Next` of the old one |
| `Banner.Carousel.PrevSlide` | src/app/home/Banner/banner.component/banner.component.ts:62-66 | the slide becomes `Prev` of the old one |
| `Banner.Carousel.GoToSlide` | src/app/home/Banner/banner.component/banner.component.ts:68-72 | any index is taken as is and autoplay restarts |
| `Banner.Carousel.StartAutoplay` | src/app/home/Banner/banner.component/banner.component.ts:44-48 | the timer runs |
| `Banner.Carousel.StopAutoplay` | src/app/home/Banner/banner.component/banner.component.ts:50-76 | the timer stops |
| `Banner.NextThenPrev` | src/app/home/Banner/banner.component/banner.component.ts:56-66 | next then previous shows the slide shown before |
| `Sorting.Sort` | src/app/features/catalog/components/catalog.component/catalog.component.ts:65-82 | the array `sort` the pages use returns a permutation of its input |
| `Sorting.SortSorted` | src/app/features/products/components/product-details.component/product-details.component.ts:62-66 | under a strict order given as a comparator, the result is sorted |
| `Sorting.SortStable` | src/app/features/products/components/product-details.component/product-details.component.ts:62-66 | under a strict weak order the sort is stable: the elements tied with any given one appear in the same relative order as in the input, as `Array.prototype.sort` promises |
| `Text.LastIndexOf` | src/main/java/org/example/restecommercehardware/Service/Impl/FileStorageService_Impl.java:49 | `lastIndexOf` gives -1 iff the character is absent, otherwise the position of its last occurrence |
| `Repository.Below` | src/main/java/org/example/restecommercehardware/Service/Impl/ItemsCarrito_Service_Impl.java:45-50 | a table listing below a bound holds only stored rows and no more rows than the bound |
| `Repository.IdsBelow` | src/main/java/org/example/restecommercehardware/Service/Impl/ItemsCarrito_Service_Impl.java:45-50 | the stored ids below the bound, each once, in increasing order |
| `Repository.BelowListsIdsInOrder` | src/main/java/org/example/restecommercehardware/Service/Impl/ItemsCarrito_Service_Impl.java:45-50 | the listing is the row of each stored id below the bound, once each, in increasing id order |

## Left out

- HTTP requests, `firstValueFrom`, `subscribe` callbacks and `Promise.all` are not modelled as such. Each request is an input saying how it ended, and the save's callbacks are the `Barrier.Settle` calls, one at a time in any order.
- `FileReader` and the data URL of a preview are modelled only as an opaque value derived from the file (`ImageSet.DataUrl`).
- The order in which previews finish loading is not modelled. The model appends accepted files in selection order, as the readers are started.
- The editor reads `draggedIndex` at drop time without checking it against a list that may have shrunk since the drag began. `ImageEditor.Editor.Drop` requires the remembered position to be inside the list instead.
- Product form fields, `onSubmit`'s product create/update request, `cancel`, `onDragOver` and `selectImage` are not modelled. They are routing or form plumbing around the image core.
- Floating point is not modelled: the IGV share (`tax`, `igvIncluido`), the average rating and `getPercentage`. The review statistics keep the average as its two integer terms.
- `formatPrice` and `formatDate` (locale formatting) are not modelled.
- `localeCompare` is not modelled: `Catalog.FilteredProductsOrdered` orders names by code point.
- `toLowerCase`, `toUpperCase` and `includes` are modelled for ASCII letters only (`Text.Lower`, `Text.Upper`).
- Date parsing is not modelled: an order's `fechaPedido` is already the number of milliseconds that `new Date(...).getTime()` would give.
- The random UUID, the upload directory, and file writing and deletion are not modelled. The UUID is a parameter, and the deleted file is the computed target name.
- The backend's base URL and the build-time `environment.apiUrl` are parameters or constants.
- Alerts, console output, navigation other than the flags the pages keep, `loading` and `error` signals, form resets and `markFormGroupTouched` are not modelled. Angular validators are boolean inputs (`formValid`, `shippingValid`, `cardValid`).
- The payment page's fallback in `loadCartItems` is a parameter: the lines the backend returns when the shared store is empty. Its redirects for a missing cart, an empty cart or a failed request are not modelled.
- `clearPurchasedItems` ignores its own failures, so only its call is implied and its effect on the backend cart is not modelled.
- `buyNow`, `goBack`, `irALogin`, `navigateToCreate`, `navigateToEdit` and `getUserName` (display plumbing) are not modelled.
- The `getProductImage` of the cart and payment pages is `CatalogImageUrl` itself: same placeholder, same rule. It has no member of its own.
- The banner's interval timer is modelled as the `autoplayRunning` flag, with `nextSlide` as one tick. Time is not modelled.
- Read-only repository lookups (`getAll…`, `get…ById`, `get…ByNombre`, `searchProductosByNombre`, `getProductosByCategoria`/`ByMarca`) are not modelled. They have no logic beyond the query.
- `getProductosConImagenPortada` is not modelled: it maps a native SQL query, which is not part of this model.
- Database behaviour is not modelled: NOT NULL constraints rejecting a create with a null name, e-mail or rating, and the order of rows that tie on a sort key.
- JPA `save` of an entity that arrives with an id is not modelled: creation always assigns the next id.
- Listings a repository returns in an unspecified order (`findByIdCarrito`) are modelled in ascending id order.
- A cart line whose product row has disappeared is a `NullDereference("producto")` error, as the DTO mapping dereferences it.
- `ImageUrls.AdminImageUrlIdempotent` holds only for an `apiUrl` beginning with "http"; the configured value is one.
- `ProductReview.StarsArray` takes an integer rating: the template only passes stored ratings, which are integers.
- `Catalog.FilteredProductsOrdered` states the order by each sort key. For the two name options this is code-point order, not the locale order of `localeCompare`.
- Payment.PaymentSubtotal: a line subtotal is always an integer, so the `|| 0` fallback of the payment page (which only changes a missing, `null` or `NaN` subtotal) is the identity here. `ItemCarritoModel.subtotal` is a required `number` (src/app/features/products/models/carrito.model.ts:32), and the backend DTO always sets it (src/main/java/org/example/restecommercehardware/Service/Impl/ItemsCarrito_Service_Impl.java:84-85).
- Payment.PaymentTotal: the same holds; a page holding a line without a subtotal, which would be charged 0 for it, is not modelled.
- Payment.CheckoutChargesCartTotal: it holds for lines that carry a subtotal, which is every line the backend sends. For a line without one the cart page's sum (which has no fallback) would be `NaN` while the payment page counts 0; that case is not modelled.

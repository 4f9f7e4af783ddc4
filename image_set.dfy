/**
 * The values the product editor works on: the ordered list of image entries,
 * the list operations its handlers build new lists with (append a batch,
 * remove one, move one, renumber), and the plan of remote operations computed
 * when the product is saved.
 */
module ImageSet {
  import opened Wrappers
  import opened Lists
  import opened ImageUrls
  import opened AdminProductService

  /** An image record as the backend returns it for a product. */
  datatype ServerImage = ServerImage(id: int, urlImagen: string, orden: int, idProducto: int)

  /**
   * One entry of the editor's image list. An entry loaded from the backend has
   * `id`, `idProducto` and `urlImagen`; an entry added in the browser has `file`
   * instead. Every optional field is `None` where the source leaves it undefined.
   */
  datatype ImageItem = ImageItem(
    id: Option<int>,
    file: Option<SelectedFile>,
    preview: string,
    orden: int,
    uploading: Option<bool>,
    idProducto: Option<int>,
    urlImagen: Option<string>)

  /** `img.id` is truthy: present and not 0. */
  predicate HasId(img: ImageItem)
  {
    img.id.Some? && img.id.value != 0
  }

  /** `img.file` is truthy. */
  predicate HasFile(img: ImageItem)
  {
    img.file.Some?
  }

  /** `img.id && img.idProducto && img.urlImagen`: the entry can be sent an order update. */
  predicate CanPatch(img: ImageItem)
  {
    HasId(img) && img.idProducto.Some? && img.urlImagen.Some? && img.urlImagen.value != ""
  }

  /** A stored image the editor will send an order update for on save. */
  predicate IsReorder(img: ImageItem)
  {
    HasId(img) && !HasFile(img)
  }

  /** Two entries with truthy ids never share the id. */
  predicate IdsDistinct(s: seq<ImageItem>)
  {
    forall i, j :: 0 <= i < |s| && 0 <= j < |s| && i != j && HasId(s[i]) && HasId(s[j]) ==>
      s[i].id.value != s[j].id.value
  }

  /** The editor entry for a stored image. */
  function FromServer(rec: ServerImage): (img: ImageItem)
    ensures img.id == Some(rec.id) && !HasFile(img) && img.orden == rec.orden
    ensures img.preview == EditorPreviewUrl(rec.urlImagen)
    ensures rec.id != 0 && rec.urlImagen != "" ==> CanPatch(img)
  {
    ImageItem(Some(rec.id), None, EditorPreviewUrl(rec.urlImagen), rec.orden, None,
              Some(rec.idProducto), Some(rec.urlImagen))
  }

  /** What `FileReader.readAsDataURL` yields for a file. */
  function DataUrl(file: SelectedFile): string
  {
    "data:" + file.mediaType + ";base64," + file.base64
  }

  /** The entry created for an accepted file. */
  function NewItem(file: SelectedFile, orden: int): ImageItem
  {
    ImageItem(None, Some(file), DataUrl(file), orden, Some(false), None, None)
  }

  /**
   * The entries one file selection appends: one per accepted file, in
   * selection order, every one with the same `orden`.
   */
  function BatchItems(files: seq<SelectedFile>, orden: int): (r: seq<ImageItem>)
    ensures |r| == Count(files, Acceptable)
  {
    if files == [] then []
    else
      var last := files[|files| - 1];
      var init := files[..|files| - 1];
      assert files == init + [last];
      CountAppend(init, [last], Acceptable);
      BatchItems(init, orden) + (if Acceptable(last) then [NewItem(last, orden)] else [])
  }

  /**
   * The appended entries are exactly the accepted files, in selection order,
   * each as a new entry with the given `orden`: rejected files are skipped and
   * the rest of the batch is still added.
   */
  lemma {:induction false} BatchItemsAreAcceptedFiles(files: seq<SelectedFile>, orden: int)
    ensures |BatchItems(files, orden)| == |Filter(files, Acceptable)|
    ensures forall k :: 0 <= k < |BatchItems(files, orden)| ==>
      BatchItems(files, orden)[k] == NewItem(Filter(files, Acceptable)[k], orden)
  {
    if files != [] {
      var last := files[|files| - 1];
      var init := files[..|files| - 1];
      assert files == init + [last];
      FilterAppend(init, [last], Acceptable);
      BatchItemsAreAcceptedFiles(init, orden);
    }
  }

  /** The messages shown for rejected files, one per rejected file, in selection order. */
  function RejectionMessages(files: seq<SelectedFile>): (r: seq<string>)
    ensures |r| == |files| - Count(files, Acceptable)
  {
    if files == [] then []
    else
      var last := files[|files| - 1];
      var init := files[..|files| - 1];
      assert files == init + [last];
      CountAppend(init, [last], Acceptable);
      RejectionMessages(init)
      + (if Acceptable(last) then [] else [last.name + ": " + ValidateImageFile(last).error.value])
  }

  /** Selecting one more file extends the appended entries and the messages by that file's outcome. */
  lemma BatchStep(files: seq<SelectedFile>, i: int, orden: int)
    requires 0 <= i < |files|
    ensures BatchItems(files[..i + 1], orden) ==
      BatchItems(files[..i], orden) + (if Acceptable(files[i]) then [NewItem(files[i], orden)] else [])
    ensures RejectionMessages(files[..i + 1]) ==
      RejectionMessages(files[..i])
      + (if Acceptable(files[i]) then [] else [files[i].name + ": " + ValidateImageFile(files[i]).error.value])
  {
    var next := files[..i + 1];
    assert next[..|next| - 1] == files[..i];
  }

  /** `s.filter((_, i) => i !== index)` */
  function RemoveAt<T>(s: seq<T>, index: int): (r: seq<T>)
    requires 0 <= index < |s|
    ensures |r| == |s| - 1
    ensures forall k :: 0 <= k < |r| ==> r[k] == s[if k < index then k else k + 1]
  {
    s[..index] + s[index + 1..]
  }

  /**
   * The drag-and-drop move: take the entry at `from` out and put it back in at
   * `to`. The moved entry ends up at `to` and the others keep their relative
   * order.
   */
  function Move<T>(s: seq<T>, from: int, to: int): (r: seq<T>)
    requires 0 <= from < |s| && 0 <= to < |s|
    ensures |r| == |s|
    ensures r[to] == s[from]
    ensures RemoveAt(r, to) == RemoveAt(s, from)
    ensures multiset(r) == multiset(s)
  {
    var rest := RemoveAt(s, from);
    var r := rest[..to] + [s[from]] + rest[to..];
    assert RemoveAt(r, to) == rest;
    assert s == s[..from] + [s[from]] + s[from + 1..];
    calc {
      multiset(r);
      multiset(rest[..to]) + multiset{s[from]} + multiset(rest[to..]);
      { assert rest == rest[..to] + rest[to..]; }
      multiset(rest) + multiset{s[from]};
      multiset(s);
    }
    r
  }

  /** The position in `s` that position `k` of `Move(s, from, to)` comes from. */
  function MoveSource(from: int, to: int, k: int): int
  {
    if k == to then from
    else
      var m := if k < to then k else k - 1;
      if m < from then m else m + 1
  }

  /** Different positions of the moved list come from different positions of the original. */
  lemma MoveSourceInjective(n: int, from: int, to: int, i: int, j: int)
    requires 0 <= from < n && 0 <= to < n && 0 <= i < n && 0 <= j < n && i != j
    ensures MoveSource(from, to, i) != MoveSource(from, to, j)
  {
  }

  lemma MoveSourceSpec<T>(s: seq<T>, from: int, to: int, k: int)
    requires 0 <= from < |s| && 0 <= to < |s| && 0 <= k < |s|
    ensures 0 <= MoveSource(from, to, k) < |s|
    ensures Move(s, from, to)[k] == s[MoveSource(from, to, k)]
  {
    var rest := RemoveAt(s, from);
    assert Move(s, from, to) == rest[..to] + [s[from]] + rest[to..];
  }

  /** `items.map((img, index) => ({...img, orden: index + 1}))` */
  function Renumber(items: seq<ImageItem>): (r: seq<ImageItem>)
    ensures |r| == |items|
    ensures forall i :: 0 <= i < |r| ==> r[i].orden == i + 1
    ensures forall i :: 0 <= i < |r| ==> r[i].(orden := items[i].orden) == items[i]
  {
    seq(|items|, i requires 0 <= i < |items| => items[i].(orden := i + 1))
  }

  /** The positions hold 1, 2, ..., n in list order. */
  predicate DenseOrder(items: seq<ImageItem>)
  {
    forall i :: 0 <= i < |items| ==> items[i].orden == i + 1
  }

  /** An order update sent for a stored image: `PATCH .../{imageId}/orden?nuevoOrden={orden}`. */
  datatype OrderUpdate = OrderUpdate(imageId: int, orden: int)

  /** The update sent for one patchable entry: its id and its position. */
  function UpdateFor(img: ImageItem): OrderUpdate
    requires CanPatch(img)
  {
    OrderUpdate(img.id.value, img.orden)
  }

  /**
   * The order updates `reorderImages` sends right away, entry by entry: one
   * for each patchable entry, in list order, with that entry's id and position.
   */
  function OrderUpdates(items: seq<ImageItem>): (r: seq<OrderUpdate>)
    ensures |r| == Count(items, CanPatch)
  {
    if items == [] then []
    else
      assert items == [items[0]] + items[1..];
      var rest := OrderUpdates(items[1..]);
      if CanPatch(items[0]) then [UpdateFor(items[0])] + rest else rest
  }

  /** Prepending a patchable entry prepends its update. */
  lemma UpdatesCons(x: ImageItem, fs: seq<ImageItem>, rest: seq<OrderUpdate>)
    requires CanPatch(x) && forall k :: 0 <= k < |fs| ==> CanPatch(fs[k])
    requires |rest| == |fs| && forall k :: 0 <= k < |rest| ==> rest[k] == UpdateFor(fs[k])
    ensures forall k :: 0 <= k < |rest| + 1 ==> ([UpdateFor(x)] + rest)[k] == UpdateFor(([x] + fs)[k])
  {
    forall k | 0 <= k < |rest| + 1 ensures ([UpdateFor(x)] + rest)[k] == UpdateFor(([x] + fs)[k]) {
      if k > 0 {
        assert ([UpdateFor(x)] + rest)[k] == rest[k - 1] && ([x] + fs)[k] == fs[k - 1];
      }
    }
  }

  /** The k-th update is the one for the k-th patchable entry of the list. */
  lemma {:induction false} OrderUpdatesSpec(items: seq<ImageItem>)
    ensures |OrderUpdates(items)| == |Filter(items, CanPatch)|
    ensures forall k :: 0 <= k < |OrderUpdates(items)| ==>
      OrderUpdates(items)[k] == UpdateFor(Filter(items, CanPatch)[k])
  {
    CountIsFilterLength(items, CanPatch);
    if items != [] {
      var tail := items[1..];
      OrderUpdatesSpec(tail);
      var rest := OrderUpdates(tail);
      var fs := Filter(tail, CanPatch);
      if CanPatch(items[0]) {
        assert Filter(items, CanPatch) == [items[0]] + fs;
        assert OrderUpdates(items) == [UpdateFor(items[0])] + rest;
        UpdatesCons(items[0], fs, rest);
      } else {
        assert Filter(items, CanPatch) == fs;
        assert OrderUpdates(items) == rest;
      }
    }
  }

  /**
   * On a list numbered from `base + 1` on, the positions sent rise strictly and
   * stay above `base` and within the list.
   */
  lemma {:induction false} UpdatesAscendFrom(items: seq<ImageItem>, base: int)
    requires forall i :: 0 <= i < |items| ==> items[i].orden == base + i + 1
    ensures forall k :: 0 <= k < |OrderUpdates(items)| ==> base < OrderUpdates(items)[k].orden <= base + |items|
    ensures forall j, k :: 0 <= j < k < |OrderUpdates(items)| ==> OrderUpdates(items)[j].orden < OrderUpdates(items)[k].orden
  {
    if items != [] {
      var tail := items[1..];
      assert forall i :: 0 <= i < |tail| ==> tail[i].orden == (base + 1) + i + 1;
      UpdatesAscendFrom(tail, base + 1);
      var rest := OrderUpdates(tail);
      if CanPatch(items[0]) {
        var u := [UpdateFor(items[0])] + rest;
        assert OrderUpdates(items) == u;
        forall k | 0 <= k < |u| ensures base < u[k].orden <= base + |items| {
          if k > 0 {
            assert u[k] == rest[k - 1];
          }
        }
        forall j, k | 0 <= j < k < |u| ensures u[j].orden < u[k].orden {
          assert u[k] == rest[k - 1];
          if j > 0 {
            assert u[j] == rest[j - 1];
          }
        }
      } else {
        assert OrderUpdates(items) == rest;
      }
    }
  }

  /**
   * After renumbering, the updates carry distinct positions from 1 to the list
   * length, in increasing order: no two stored images are sent the same place.
   */
  lemma RenumberedUpdatesAscend(items: seq<ImageItem>)
    ensures forall k :: 0 <= k < |OrderUpdates(Renumber(items))| ==>
      1 <= OrderUpdates(Renumber(items))[k].orden <= |items|
    ensures forall j, k :: 0 <= j < k < |OrderUpdates(Renumber(items))| ==>
      OrderUpdates(Renumber(items))[j].orden < OrderUpdates(Renumber(items))[k].orden
  {
    UpdatesAscendFrom(Renumber(items), 0);
  }

  /** What saving the product has to do about its images. */
  datatype Plan = Plan(deletions: seq<int>, uploads: seq<ImageItem>, reorders: seq<ImageItem>, total: nat)

  /**
   * The three lists `processImages` builds: the ids marked for deletion, the
   * entries with a file (to upload) and the entries with an id and no file (to
   * send their order), and the number of operations it waits for.
   */
  function MakePlan(images: seq<ImageItem>, deletedIds: seq<int>): (p: Plan)
    ensures p.deletions == deletedIds
    ensures p.uploads == Filter(images, HasFile)
    ensures p.reorders == Filter(images, IsReorder)
    ensures p.total == |deletedIds| + |p.uploads| + |p.reorders|
  {
    var uploads := Filter(images, HasFile);
    var reorders := Filter(images, IsReorder);
    Plan(deletedIds, uploads, reorders, |deletedIds| + |uploads| + |reorders|)
  }

  /**
   * The two image lists of the plan are disjoint, and every entry of the
   * editor that is in neither has no file and no truthy id.
   */
  lemma {:induction false} PlanPartition(images: seq<ImageItem>, deletedIds: seq<int>)
    ensures var p := MakePlan(images, deletedIds);
      (forall x :: x in p.uploads ==> x !in p.reorders)
      && |p.uploads| + |p.reorders| + Count(images, x => !HasFile(x) && !HasId(x)) == |images|
  {
    var p := MakePlan(images, deletedIds);
    forall x | x in p.uploads ensures x !in p.reorders {
      var i :| 0 <= i < |p.uploads| && p.uploads[i] == x;
      assert HasFile(x);
      assert forall j :: 0 <= j < |p.reorders| ==> p.reorders[j] != x;
    }
    PartitionCount(images);
    CountIsFilterLength(images, HasFile);
    CountIsFilterLength(images, IsReorder);
  }

  lemma {:induction false} PartitionCount(s: seq<ImageItem>)
    ensures Count(s, HasFile) + Count(s, IsReorder) + Count(s, x => !HasFile(x) && !HasId(x)) == |s|
  {
    if s != [] {
      PartitionCount(s[1..]);
    }
  }

  /** Saving has nothing to wait for exactly when nothing is marked for deletion and no entry has a file or a truthy id. */
  lemma PlanEmpty(images: seq<ImageItem>, deletedIds: seq<int>)
    ensures MakePlan(images, deletedIds).total == 0 <==>
      deletedIds == [] && forall i :: 0 <= i < |images| ==> !HasFile(images[i]) && !HasId(images[i])
  {
    var p := MakePlan(images, deletedIds);
    if p.total == 0 {
      forall i | 0 <= i < |images| ensures !HasFile(images[i]) && !HasId(images[i]) {
        if HasFile(images[i]) {
          FilterKeeps(images, HasFile, i);
        } else if HasId(images[i]) {
          FilterKeeps(images, IsReorder, i);
        }
      }
    }
    if deletedIds == [] && forall i :: 0 <= i < |images| ==> !HasFile(images[i]) && !HasId(images[i]) {
      FilterNone(images, HasFile);
      FilterNone(images, IsReorder);
    }
  }

  /** A remote call the save issues. */
  datatype Op =
    | DeleteImage(imageId: int)
    | UploadImage(productId: int, file: SelectedFile, orden: int)
    | UpdateOrder(imageId: int, orden: int)

  /**
   * The calls `processImages` actually issues: a delete per marked id, an
   * upload per entry with a file, and an order update per reorder entry that
   * also has `idProducto` and `urlImagen`.
   */
  function Issued(images: seq<ImageItem>, deletedIds: seq<int>, productId: int): (ops: seq<Op>)
    ensures |ops| == |deletedIds| + |Filter(images, HasFile)| + |Filter(Filter(images, IsReorder), CanPatch)|
    ensures |ops| == |deletedIds| + |Filter(images, HasFile)| + Count(Filter(images, IsReorder), CanPatch)
    ensures forall k :: 0 <= k < |deletedIds| ==> ops[k] == DeleteImage(deletedIds[k])
  {
    CountIsFilterLength(Filter(images, IsReorder), CanPatch);
    DeleteOps(deletedIds)
    + UploadOps(Filter(images, HasFile), productId)
    + UpdateOps(Filter(Filter(images, IsReorder), CanPatch))
  }

  /** `deletedIds.forEach(...)`: one delete per marked id. */
  function DeleteOps(deletedIds: seq<int>): (r: seq<Op>)
    ensures |r| == |deletedIds|
  {
    seq(|deletedIds|, k requires 0 <= k < |deletedIds| => DeleteImage(deletedIds[k]))
  }

  /** `newImages.forEach(...)`: one upload per entry with a file. */
  function UploadOps(uploads: seq<ImageItem>, productId: int): (r: seq<Op>)
    requires forall k :: 0 <= k < |uploads| ==> HasFile(uploads[k])
    ensures |r| == |uploads|
  {
    seq(|uploads|, k requires 0 <= k < |uploads| && HasFile(uploads[k]) => UploadImage(productId, uploads[k].file.value, uploads[k].orden))
  }

  /** `existingImages.forEach(...)` over the patchable entries: one order update each. */
  function UpdateOps(patches: seq<ImageItem>): (r: seq<Op>)
    requires forall k :: 0 <= k < |patches| ==> CanPatch(patches[k])
    ensures |r| == |patches|
  {
    seq(|patches|, k requires 0 <= k < |patches| && CanPatch(patches[k]) => UpdateOrder(patches[k].id.value, patches[k].orden))
  }

  /**
   * After the deletions come the uploads: the `k`-th upload is the `k`-th entry
   * with a file, carrying that entry's file and position.
   */
  lemma IssuedUploadAt(images: seq<ImageItem>, deletedIds: seq<int>, productId: int, k: int)
    requires 0 <= k < |Filter(images, HasFile)|
    ensures Filter(images, HasFile)[k].file.Some?
    ensures Issued(images, deletedIds, productId)[|deletedIds| + k]
      == UploadImage(productId, Filter(images, HasFile)[k].file.value, Filter(images, HasFile)[k].orden)
  {
    var uploads := Filter(images, HasFile);
    var sends := UploadOps(uploads, productId);
    MiddleIndex(DeleteOps(deletedIds), sends, UpdateOps(Filter(Filter(images, IsReorder), CanPatch)), k);
  }

  /**
   * The order updates come last: the `k`-th update is the `k`-th patchable
   * reorder entry, carrying that entry's id and position.
   */
  lemma IssuedUpdateAt(images: seq<ImageItem>, deletedIds: seq<int>, productId: int, k: int)
    requires 0 <= k < |Filter(Filter(images, IsReorder), CanPatch)|
    ensures Filter(Filter(images, IsReorder), CanPatch)[k].id.Some?
    ensures Issued(images, deletedIds, productId)[|deletedIds| + |Filter(images, HasFile)| + k]
      == UpdateOrder(Filter(Filter(images, IsReorder), CanPatch)[k].id.value, Filter(Filter(images, IsReorder), CanPatch)[k].orden)
  {
    var patches := Filter(Filter(images, IsReorder), CanPatch);
    var updates := UpdateOps(patches);
    LastIndex(DeleteOps(deletedIds), UploadOps(Filter(images, HasFile), productId), updates, k);
  }

  /**
   * The save issues as many calls as it waits for exactly when every reorder
   * entry has `idProducto` and `urlImagen`; otherwise it issues fewer.
   */
  lemma IssuedMatchesTotal(images: seq<ImageItem>, deletedIds: seq<int>, productId: int)
    ensures |Issued(images, deletedIds, productId)| <= MakePlan(images, deletedIds).total
    ensures |Issued(images, deletedIds, productId)| == MakePlan(images, deletedIds).total <==>
      forall i :: 0 <= i < |images| && IsReorder(images[i]) ==> CanPatch(images[i])
  {
    var reorders := Filter(images, IsReorder);
    CountFull(reorders, CanPatch);
    if forall i :: 0 <= i < |images| && IsReorder(images[i]) ==> CanPatch(images[i]) {
      forall k | 0 <= k < |reorders| ensures CanPatch(reorders[k]) {
        var i :| 0 <= i < |images| && images[i] == reorders[k];
      }
    } else {
      var i :| 0 <= i < |images| && IsReorder(images[i]) && !CanPatch(images[i]);
      FilterKeeps(images, IsReorder, i);
    }
  }

  /** Entries with a file are marked as uploading (`img.uploading = true`); the rest are untouched. */
  function MarkUploading(images: seq<ImageItem>): (r: seq<ImageItem>)
    ensures |r| == |images|
    ensures forall i :: 0 <= i < |r| ==> r[i].(uploading := images[i].uploading) == images[i]
    ensures forall i :: 0 <= i < |r| ==> (r[i].uploading == Some(true) <==> HasFile(images[i]) || images[i].uploading == Some(true))
  {
    seq(|images|, i requires 0 <= i < |images| =>
      if HasFile(images[i]) then images[i].(uploading := Some(true)) else images[i])
  }
}

/**
 * The product editor's image handling: the `images`, `deletedImageIds` and
 * `draggedIndex` fields and the handlers that replace them, up to the start of
 * the save, which hands over to a `Barrier`.
 */
module ImageEditor {
  import opened Wrappers
  import opened Lists
  import opened AdminProductService
  import opened ImageSet
  import opened CompletionBarrier

  /** What the backend guarantees of a product's stored images: distinct non-zero ids and a non-empty url. */
  predicate LoadableRecords(records: seq<ServerImage>)
  {
    && (forall i :: 0 <= i < |records| ==> records[i].id != 0 && records[i].urlImagen != "")
    && (forall i, j :: 0 <= i < |records| && 0 <= j < |records| && i != j ==> records[i].id != records[j].id)
  }

  /** The entries the editor shows for the stored images, in the order the backend returns them. */
  function Loaded(records: seq<ServerImage>): (r: seq<ImageItem>)
    ensures |r| == |records|
    ensures forall i :: 0 <= i < |r| ==> r[i] == FromServer(records[i])
  {
    seq(|records|, i requires 0 <= i < |records| => FromServer(records[i]))
  }

  /**
   * What every handler keeps true of the editor: stored images are listed at
   * most once, an id marked for deletion is never shown again and is marked
   * once, and every stored image shown can be sent an order update.
   */
  predicate EditorInvariant(images: seq<ImageItem>, deletedIds: seq<int>)
  {
    && IdsDistinct(images)
    && Distinct(deletedIds)
    && (forall k :: 0 <= k < |deletedIds| ==> deletedIds[k] != 0)
    && (forall i, k :: 0 <= i < |images| && 0 <= k < |deletedIds| && HasId(images[i]) ==>
          images[i].id.value != deletedIds[k])
    && (forall i :: 0 <= i < |images| && HasId(images[i]) ==> CanPatch(images[i]))
  }

  /** The invariant speaks of ids, files and urls only, so renumbering cannot break it. */
  lemma InvariantRenumber(items: seq<ImageItem>, deletedIds: seq<int>)
    requires EditorInvariant(items, deletedIds)
    ensures EditorInvariant(Renumber(items), deletedIds)
  {
    var r := Renumber(items);
    assert forall i :: 0 <= i < |r| ==>
      r[i].id == items[i].id && r[i].idProducto == items[i].idProducto && r[i].urlImagen == items[i].urlImagen;
  }

  /** Dropping one entry keeps the invariant; when the entry is a stored image, its id joins the deletions. */
  lemma InvariantRemove(images: seq<ImageItem>, deletedIds: seq<int>, index: int)
    requires EditorInvariant(images, deletedIds)
    requires 0 <= index < |images|
    ensures EditorInvariant(RemoveAt(images, index),
      if HasId(images[index]) then deletedIds + [images[index].id.value] else deletedIds)
  {
    var r := RemoveAt(images, index);
    var d := if HasId(images[index]) then deletedIds + [images[index].id.value] else deletedIds;
    forall i, j | 0 <= i < |r| && 0 <= j < |r| && i != j && HasId(r[i]) && HasId(r[j])
      ensures r[i].id.value != r[j].id.value
    {
      var si := if i < index then i else i + 1;
      var sj := if j < index then j else j + 1;
      assert r[i] == images[si] && r[j] == images[sj];
    }
    forall i, k | 0 <= i < |r| && 0 <= k < |d| && HasId(r[i]) ensures r[i].id.value != d[k] {
      var si := if i < index then i else i + 1;
      assert r[i] == images[si];
      if k == |deletedIds| {
        assert d[k] == images[index].id.value;
      } else {
        assert d[k] == deletedIds[k];
      }
    }
    if HasId(images[index]) {
      forall a, b | 0 <= a < b < |d| ensures d[a] != d[b] {
        if b == |deletedIds| {
          assert d[b] == images[index].id.value;
          assert d[a] == deletedIds[a];
        }
      }
    }
  }

  /**
   * A list whose entries are taken from `s` at distinct positions keeps the
   * invariant `s` has with the same deletions.
   */
  lemma InvariantTransfer(s: seq<ImageItem>, r: seq<ImageItem>, deletedIds: seq<int>, src: int -> int)
    requires EditorInvariant(s, deletedIds)
    requires forall i :: 0 <= i < |r| ==> 0 <= src(i) < |s| && r[i] == s[src(i)]
    requires forall i, j :: 0 <= i < |r| && 0 <= j < |r| && i != j ==> src(i) != src(j)
    ensures EditorInvariant(r, deletedIds)
  {
    forall i, j | 0 <= i < |r| && 0 <= j < |r| && i != j && HasId(r[i]) && HasId(r[j])
      ensures r[i].id.value != r[j].id.value
    {
      assert r[i] == s[src(i)] && r[j] == s[src(j)];
    }
    forall i, k | 0 <= i < |r| && 0 <= k < |deletedIds| && HasId(r[i])
      ensures r[i].id.value != deletedIds[k]
    {
      assert r[i] == s[src(i)];
    }
    forall i | 0 <= i < |r| && HasId(r[i]) ensures CanPatch(r[i]) {
      assert r[i] == s[src(i)];
    }
  }

  /** Moving an entry keeps the invariant. */
  lemma InvariantMove(images: seq<ImageItem>, deletedIds: seq<int>, from: int, to: int)
    requires EditorInvariant(images, deletedIds)
    requires 0 <= from < |images| && 0 <= to < |images|
    ensures EditorInvariant(Move(images, from, to), deletedIds)
  {
    var r := Move(images, from, to);
    var src := k => MoveSource(from, to, k);
    forall i | 0 <= i < |r| ensures 0 <= src(i) < |images| && r[i] == images[src(i)] {
      MoveSourceSpec(images, from, to, i);
    }
    forall i, j | 0 <= i < |r| && 0 <= j < |r| && i != j ensures src(i) != src(j) {
      MoveSourceInjective(|images|, from, to, i, j);
    }
    InvariantTransfer(images, r, deletedIds, src);
  }

  /** Marking uploads changes no id, file or url, so it keeps the invariant. */
  lemma InvariantMarkUploading(images: seq<ImageItem>, deletedIds: seq<int>)
    requires EditorInvariant(images, deletedIds)
    ensures EditorInvariant(MarkUploading(images), deletedIds)
  {
    var r := MarkUploading(images);
    assert forall i :: 0 <= i < |r| ==>
      r[i].id == images[i].id && r[i].idProducto == images[i].idProducto && r[i].urlImagen == images[i].urlImagen;
  }

  /** Appending entries without an id keeps the invariant. */
  lemma InvariantAppendNew(images: seq<ImageItem>, deletedIds: seq<int>, extra: seq<ImageItem>)
    requires EditorInvariant(images, deletedIds)
    requires forall i :: 0 <= i < |extra| ==> !HasId(extra[i])
    ensures EditorInvariant(images + extra, deletedIds)
  {
    var r := images + extra;
    assert forall i :: |images| <= i < |r| ==> r[i] == extra[i - |images|];
  }

  /** Appending the entries of a file selection keeps the invariant. */
  lemma InvariantAppendBatch(images: seq<ImageItem>, deletedIds: seq<int>, files: seq<SelectedFile>, orden: int)
    requires EditorInvariant(images, deletedIds)
    ensures EditorInvariant(images + BatchItems(files, orden), deletedIds)
  {
    BatchItemsAreAcceptedFiles(files, orden);
    InvariantAppendNew(images, deletedIds, BatchItems(files, orden));
  }

  /** An editor keeping the invariant issues as many calls as its save waits for. */
  lemma InvariantIssuesAll(images: seq<ImageItem>, deletedIds: seq<int>, productId: int)
    requires EditorInvariant(images, deletedIds)
    ensures |Issued(images, deletedIds, productId)| == MakePlan(images, deletedIds).total
  {
    IssuedMatchesTotal(images, deletedIds, productId);
  }

  /**
   * A save that starts from an editor keeping the invariant issues every call
   * it waits for, so once every response has arrived, in any order, it
   * finishes exactly once.
   */
  lemma {:induction false} SaveFinishesOnce(
    images: seq<ImageItem>, deletedIds: seq<int>, productId: int, events: seq<Settlement>)
    requires EditorInvariant(images, deletedIds)
    requires MakePlan(images, deletedIds).total > 0
    requires |events| == |Issued(images, deletedIds, productId)|
    ensures Firings(MakePlan(images, deletedIds).total, Zero, events) == 1
  {
    InvariantIssuesAll(images, deletedIds, productId);
    FiresExactlyOnce(MakePlan(images, deletedIds).total, Zero, events);
  }

  /**
   * Without the invariant the save can hang: an entry with an id but no
   * `urlImagen` is counted in `total` but sent no order update, so the count
   * never reaches `total`, whatever the responses.
   */
  lemma {:induction false} SaveHangsWithoutUrl(
    images: seq<ImageItem>, deletedIds: seq<int>, productId: int, events: seq<Settlement>)
    requires exists i :: 0 <= i < |images| && IsReorder(images[i]) && !CanPatch(images[i])
    requires |events| <= |Issued(images, deletedIds, productId)|
    ensures Firings(MakePlan(images, deletedIds).total, Zero, events) == 0
  {
    var total := MakePlan(images, deletedIds).total;
    var i :| 0 <= i < |images| && IsReorder(images[i]) && !CanPatch(images[i]);
    IssuedMatchesTotal(images, deletedIds, productId);
    assert |events| < total;
    FiresExactlyOnce(total, Zero, events);
  }

  /** A stored image whose `urlImagen` is missing: counted, never patched. */
  lemma SaveHangsExample()
    ensures var images := [ImageItem(Some(7), None, "", 1, None, Some(3), None)];
      MakePlan(images, []).total == 1 && Issued(images, [], 3) == []
      && Firings(1, Zero, []) == 0
  {
    var images := [ImageItem(Some(7), None, "", 1, None, Some(3), None)];
    assert IsReorder(images[0]) && !CanPatch(images[0]);
    IssuedMatchesTotal(images, [], 3);
  }

  /** The image-related state of the product editor. */
  class Editor {
    var images: seq<ImageItem>
    var deletedIds: seq<int>
    var draggedIndex: Option<int>

    ghost predicate Valid()
      reads this
    {
      EditorInvariant(images, deletedIds)
    }

    /** Opening the editor: the product's stored images, or none for a new product. */
    constructor Load(records: seq<ServerImage>)
      requires LoadableRecords(records)
      ensures Valid()
      ensures images == Loaded(records) && deletedIds == [] && draggedIndex == None
    {
      var loaded := Loaded(records);
      assert forall i :: 0 <= i < |loaded| ==> loaded[i] == FromServer(records[i]);
      images := loaded;
      deletedIds := [];
      draggedIndex := None;
    }

    /**
     * `onFileSelected`: every accepted file is appended, in order, with `orden`
     * one more than the number of entries before the selection; every rejected
     * file produces its message instead. Nothing is renumbered.
     */
    method AddBatch(files: seq<SelectedFile>) returns (alerts: seq<string>)
      requires Valid()
      modifies this
      ensures Valid()
      ensures images == old(images) + BatchItems(files, |old(images)| + 1)
      ensures alerts == RejectionMessages(files)
      ensures deletedIds == old(deletedIds) && draggedIndex == old(draggedIndex)
    {
      var start := images;
      var orden := |start| + 1;
      var batch: seq<ImageItem> := [];
      alerts := [];
      var i := 0;
      while i < |files|
        invariant 0 <= i <= |files|
        invariant batch == BatchItems(files[..i], orden)
        invariant alerts == RejectionMessages(files[..i])
        modifies {}
      {
        var file := files[i];
        var validation := ValidateImageFile(file);
        BatchStep(files, i, orden);
        if !validation.valid {
          alerts := alerts + [file.name + ": " + validation.error.value];
        } else {
          batch := batch + [NewItem(file, orden)];
        }
        i := i + 1;
      }
      assert files[..i] == files;
      InvariantAppendBatch(start, deletedIds, files, orden);
      images := start + batch;
    }

    /** `reorderImages`: store the list renumbered 1..n and send the order of every patchable entry. */
    method ReorderImages(items: seq<ImageItem>) returns (updates: seq<OrderUpdate>)
      modifies this
      ensures images == Renumber(items)
      ensures updates == OrderUpdates(images)
      ensures deletedIds == old(deletedIds) && draggedIndex == old(draggedIndex)
    {
      images := Renumber(items);
      updates := OrderUpdates(images);
    }

    /**
     * `removeImage`: a stored image is removed and its id marked for deletion
     * only when the user confirms; an entry without an id is removed at once.
     * Either removal renumbers the rest.
     */
    method Remove(index: int, confirmed: bool) returns (updates: seq<OrderUpdate>)
      requires Valid()
      requires 0 <= index < |images|
      modifies this
      ensures Valid()
      ensures draggedIndex == old(draggedIndex)
      ensures HasId(old(images)[index]) && !confirmed ==>
        images == old(images) && deletedIds == old(deletedIds) && updates == []
      ensures HasId(old(images)[index]) && confirmed ==>
        deletedIds == old(deletedIds) + [old(images)[index].id.value]
      ensures !HasId(old(images)[index]) ==> deletedIds == old(deletedIds)
      ensures !HasId(old(images)[index]) || confirmed ==>
        images == Renumber(RemoveAt(old(images), index)) && updates == OrderUpdates(images)
    {
      var target := images[index];
      if HasId(target) {
        if confirmed {
          InvariantRemove(images, deletedIds, index);
          InvariantRenumber(RemoveAt(images, index), deletedIds + [target.id.value]);
          deletedIds := deletedIds + [target.id.value];
          updates := ReorderImages(RemoveAt(images, index));
        } else {
          updates := [];
        }
      } else {
        InvariantRemove(images, deletedIds, index);
        InvariantRenumber(RemoveAt(images, index), deletedIds);
        updates := ReorderImages(RemoveAt(images, index));
      }
    }

    /** `onDragStart`: remember the dragged position. */
    method OnDragStart(index: int)
      requires Valid()
      modifies this
      ensures Valid()
      ensures draggedIndex == Some(index)
      ensures images == old(images) && deletedIds == old(deletedIds)
    {
      draggedIndex := Some(index);
    }

    /**
     * `onDrop`: nothing happens without a drag or when dropping in place;
     * otherwise the dragged entry moves to `dropIndex`, the list is renumbered
     * and the drag ends.
     */
    method Drop(dropIndex: int) returns (updates: seq<OrderUpdate>)
      requires Valid()
      requires 0 <= dropIndex < |images|
      requires draggedIndex.Some? ==> 0 <= draggedIndex.value < |images|
      modifies this
      ensures Valid()
      ensures deletedIds == old(deletedIds)
      ensures old(draggedIndex) == None || old(draggedIndex) == Some(dropIndex) ==>
        images == old(images) && draggedIndex == old(draggedIndex) && updates == []
      ensures old(draggedIndex).Some? && old(draggedIndex) != Some(dropIndex) ==>
        images == Renumber(Move(old(images), old(draggedIndex).value, dropIndex))
        && draggedIndex == None && updates == OrderUpdates(images)
    {
      if draggedIndex == None || draggedIndex == Some(dropIndex) {
        updates := [];
        return;
      }
      var from := draggedIndex.value;
      InvariantMove(images, deletedIds, from, dropIndex);
      InvariantRenumber(Move(images, from, dropIndex), deletedIds);
      updates := ReorderImages(Move(images, from, dropIndex));
      draggedIndex := None;
    }

    /**
     * `processImages`: with nothing to wait for the save ends at once and no
     * call is made (no barrier). Otherwise every entry with a file is marked as
     * uploading and a barrier is started over the issued calls, which are as
     * many as the save waits for.
     */
    method ProcessImages(productId: int) returns (b: Barrier?)
      requires Valid()
      modifies this
      ensures Valid()
      ensures deletedIds == old(deletedIds) && draggedIndex == old(draggedIndex)
      ensures MakePlan(old(images), deletedIds).total == 0 ==> b == null && images == old(images)
      ensures MakePlan(old(images), deletedIds).total > 0 ==>
        && b != null && fresh(b) && b.Valid()
        && b.total == MakePlan(old(images), deletedIds).total
        && b.pending == multiset(Issued(old(images), deletedIds, productId))
        && b.total == |Issued(old(images), deletedIds, productId)|
        && b.tally == Zero && b.submitting
        && images == MarkUploading(old(images))
    {
      var plan := MakePlan(images, deletedIds);
      if plan.total == 0 {
        b := null;
        return;
      }
      var issued := Issued(images, deletedIds, productId);
      InvariantIssuesAll(images, deletedIds, productId);
      MarkFilesUploading();
      b := new Barrier.Start(plan.total, issued);
    }

    /** Every entry with a file is marked as uploading before its upload is issued. */
    method MarkFilesUploading()
      requires Valid()
      modifies this
      ensures Valid()
      ensures images == MarkUploading(old(images))
      ensures deletedIds == old(deletedIds) && draggedIndex == old(draggedIndex)
    {
      InvariantMarkUploading(images, deletedIds);
      images := MarkUploading(images);
    }
  }
}

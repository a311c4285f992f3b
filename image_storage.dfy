/**
 * Receipt images kept in the browser's storage (`imageStorage.ts`): the key
 * scheme, saving, reading and deleting one image, removing the images no
 * record refers to, and the space the images take.
 */
module ImageStorage {
  import opened Options
  import opened Seqs
  import opened Text

  // ---------------------------------------------------------------------
  // The browser's storage
  // ---------------------------------------------------------------------

  /** One stored key and its text. */
  datatype Item = Item(key: string, value: string)

  function KeysOf(items: seq<Item>): (ks: seq<string>)
    ensures |ks| == |items|
  {
    if items == [] then [] else KeysOf(items[..|items| - 1]) + [items[|items| - 1].key]
  }

  lemma {:induction false} KeysOfAt(items: seq<Item>)
    ensures forall i :: 0 <= i < |items| ==> KeysOf(items)[i] == items[i].key
  {
    if items != [] {
      KeysOfAt(items[..|items| - 1]);
    }
  }

  /**
   * `getItem`: the text stored under `key`, `None` for `null`. Keys are
   * unique in the storage, so the item found is the one under `key`.
   */
  function GetItem(items: seq<Item>, key: string): Option<string>
  {
    if items == [] then None
    else if items[|items| - 1].key == key then Some(items[|items| - 1].value)
    else GetItem(items[..|items| - 1], key)
  }

  /** The items with the one under `key` given the text `value`. */
  function Replace(items: seq<Item>, key: string, value: string): seq<Item>
  {
    if items == [] then []
    else
      var last := items[|items| - 1];
      Replace(items[..|items| - 1], key, value) + [if last.key == key then Item(key, value) else last]
  }

  /** `setItem`: an existing key keeps its place and gets the new text, a new key goes last. */
  function SetItem(items: seq<Item>, key: string, value: string): seq<Item>
  {
    if key in KeysOf(items) then Replace(items, key, value) else items + [Item(key, value)]
  }

  function KeyIsNot(key: string): Item -> bool { (it: Item) => it.key != key }

  /** `removeItem`. */
  function RemoveItem(items: seq<Item>, key: string): seq<Item>
  {
    Filter(items, KeyIsNot(key))
  }

  lemma GetSnoc(a: seq<Item>, y: Item, k: string)
    ensures GetItem(a + [y], k) == if y.key == k then Some(y.value) else GetItem(a, k)
  {
    assert (a + [y])[..|a|] == a;
  }

  lemma KeysSnoc(a: seq<Item>, y: Item)
    ensures KeysOf(a + [y]) == KeysOf(a) + [y.key]
  {
    assert (a + [y])[..|a|] == a;
  }

  /** Replacing keeps the keys. */
  lemma {:induction false} ReplaceKeys(items: seq<Item>, key: string, value: string)
    ensures KeysOf(Replace(items, key, value)) == KeysOf(items)
  {
    if items != [] {
      var n := |items| - 1;
      var init := items[..n];
      var last := items[n];
      ReplaceKeys(init, key, value);
      assert items == init + [last];
      KeysSnoc(init, last);
      KeysSnoc(Replace(init, key, value), if last.key == key then Item(key, value) else last);
    }
  }

  /** Replacing changes what `key` reads, when it is present, and nothing else. */
  lemma {:induction false} ReplaceGet(items: seq<Item>, key: string, value: string, k: string)
    ensures GetItem(Replace(items, key, value), k)
      == if k == key && key in KeysOf(items) then Some(value) else GetItem(items, k)
  {
    if items != [] {
      var n := |items| - 1;
      var init := items[..n];
      var last := items[n];
      ReplaceGet(init, key, value, k);
      assert items == init + [last];
      KeysSnoc(init, last);
      GetSnoc(init, last, k);
      GetSnoc(Replace(init, key, value), if last.key == key then Item(key, value) else last, k);
    }
  }

  /** After `setItem`, the key reads back the new text and every other key reads as before. */
  lemma GetAfterSet(items: seq<Item>, key: string, value: string, k: string)
    ensures GetItem(SetItem(items, key, value), k) == if k == key then Some(value) else GetItem(items, k)
    ensures KeysOf(SetItem(items, key, value)) == if key in KeysOf(items) then KeysOf(items) else KeysOf(items) + [key]
  {
    ReplaceKeys(items, key, value);
    ReplaceGet(items, key, value, k);
    GetSnoc(items, Item(key, value), k);
    KeysSnoc(items, Item(key, value));
  }

  /** After `removeItem`, the key reads as absent and every other key reads as before. */
  lemma {:induction false} GetAfterRemove(items: seq<Item>, key: string, k: string)
    ensures GetItem(RemoveItem(items, key), k) == if k == key then None else GetItem(items, k)
  {
    if items != [] {
      var n := |items| - 1;
      var init := items[..n];
      var last := items[n];
      GetAfterRemove(init, key, k);
      GetSnoc(init, last, k);
      assert items == init + [last];
      if last.key != key {
        GetSnoc(RemoveItem(init, key), last, k);
      }
    }
  }

  /** Keys are unique in the storage. */
  predicate UniqueKeys(items: seq<Item>)
  {
    NoDuplicates(KeysOf(items))
  }

  /** With unique keys, a stored item is what its key reads. */
  lemma {:induction false} GetStored(items: seq<Item>, i: nat)
    requires i < |items| && UniqueKeys(items)
    ensures GetItem(items, items[i].key) == Some(items[i].value)
  {
    var n := |items| - 1;
    if i < n {
      var init := items[..n];
      KeysOfAt(items);
      assert KeysOf(items)[i] != KeysOf(items)[n];
      assert KeysOf(init) == KeysOf(items)[..n];
      GetStored(init, i);
      assert init[i] == items[i];
    }
  }

  /** Setting an item keeps the keys unique. */
  lemma SetKeepsUnique(items: seq<Item>, key: string, value: string)
    requires UniqueKeys(items)
    ensures UniqueKeys(SetItem(items, key, value))
  {
    GetAfterSet(items, key, value, key);
  }

  /** Removing an item keeps the keys unique. */
  lemma RemoveKeepsUnique(items: seq<Item>, key: string)
    requires UniqueKeys(items)
    ensures UniqueKeys(RemoveItem(items, key))
  {
    var r := RemoveItem(items, key);
    KeysOfAt(items);
    KeysOfAt(r);
    forall i, j | 0 <= i < j < |r|
      ensures KeysOf(r)[i] != KeysOf(r)[j]
    {
      SubsequenceIndices(items, KeyIsNot(key), i, j);
    }
  }

  /** Two places of a filter come from two places of the list, in the same order. */
  lemma {:induction false} SubsequenceIndices(items: seq<Item>, p: Item -> bool, i: nat, j: nat)
    requires i < j < |Filter(items, p)|
    ensures exists a, b :: 0 <= a < b < |items| && items[a] == Filter(items, p)[i] && items[b] == Filter(items, p)[j]
  {
    var n := |items| - 1;
    var init := items[..n];
    assert items == init + [items[n]];
    if j < |Filter(init, p)| {
      SubsequenceIndices(init, p, i, j);
      var a, b :| 0 <= a < b < |init| && init[a] == Filter(init, p)[i] && init[b] == Filter(init, p)[j];
      assert items[a] == init[a] && items[b] == init[b];
    } else {
      assert Filter(items, p)[j] == items[n];
      var x := Filter(init, p)[i];
      assert x in init;
      var a :| 0 <= a < |init| && init[a] == x;
      assert items[a] == init[a];
    }
  }

  /** `localStorage`: its items in the order `Object.keys` lists them. */
  class LocalStorage {
    var items: seq<Item>

    predicate Valid()
      reads this
    {
      UniqueKeys(items)
    }

    constructor(initial: seq<Item>)
      requires UniqueKeys(initial)
      ensures Valid() && items == initial
    {
      items := initial;
    }

    function Get(key: string): Option<string>
      reads this
    {
      GetItem(items, key)
    }

    method Set(key: string, value: string)
      requires Valid()
      modifies this
      ensures Valid() && items == SetItem(old(items), key, value)
    {
      SetKeepsUnique(items, key, value);
      items := SetItem(items, key, value);
    }

    method Remove(key: string)
      requires Valid()
      modifies this
      ensures Valid() && items == RemoveItem(old(items), key)
    {
      RemoveKeepsUnique(items, key);
      items := RemoveItem(items, key);
    }
  }

  // ---------------------------------------------------------------------
  // Keys of receipt images
  // ---------------------------------------------------------------------

  const Prefix: string := "receipt_image_"

  /** The storage key of image `id`. */
  function ImageKey(id: string): string { Prefix + id }

  predicate IsImageKey(key: string) { StartsWith(key, Prefix) }

  /**
   * `key.replace(STORAGE_KEY_PREFIX, '')` for a key that starts with the
   * prefix: the first occurrence is the leading one, so the prefix is dropped.
   */
  function IdOf(key: string): string
    requires IsImageKey(key)
  {
    key[|Prefix|..]
  }

  /** The id of a saved image leads back to its key, and an image key is the key of its id. */
  lemma ImageKeyRoundTrip(id: string, key: string)
    ensures IsImageKey(ImageKey(id)) && IdOf(ImageKey(id)) == id
    ensures IsImageKey(key) ==> ImageKey(IdOf(key)) == key
  {
    assert ImageKey(id)[..|Prefix|] == Prefix;
  }

  /** The generated id: the clock reading in milliseconds, `_`, then the nine random base-36 characters given. */
  function NewImageId(now: nat, random: string): (id: string)
    ensures |id| > |random| && id[|id| - |random|..] == random && '_' in id
  {
    var id := NatToString(now) + "_" + random;
    assert id[|NatToString(now)|] == '_';
    id
  }

  /** With an underscore-free random part, splitting an id on `_` gives back the time's decimal text and the random part. */
  lemma NewImageIdSplit(now: nat, random: string)
    requires '_' !in random
    ensures Split(NewImageId(now, random), '_') == [NatToString(now), random]
    ensures var time := Split(NewImageId(now, random), '_')[0]; AllDigits(time) && DigitsValue(time) == now
  {
    var t := NatToString(now);
    NatToStringRoundTrip(now);
    assert '_' !in t by {
      forall k | 0 <= k < |t| ensures t[k] != '_' { assert IsDigit(t[k]); }
    }
    SplitFirstPiece(t, random, '_');
    SplitNoSeparator(random, '_');
  }

  /** `getReceiptImage`. */
  function GetReceiptImage(items: seq<Item>, id: string): Option<string>
  {
    GetItem(items, ImageKey(id))
  }

  /** A saved image reads back; deleting it makes it read as absent; other images are not affected by either. */
  lemma SaveGetDelete(items: seq<Item>, id: string, other: string, image: string)
    requires other != id
    ensures GetReceiptImage(SetItem(items, ImageKey(id), image), id) == Some(image)
    ensures GetReceiptImage(SetItem(items, ImageKey(id), image), other) == GetReceiptImage(items, other)
    ensures GetReceiptImage(RemoveItem(items, ImageKey(id)), id) == None
    ensures GetReceiptImage(RemoveItem(items, ImageKey(id)), other) == GetReceiptImage(items, other)
  {
    GetAfterSet(items, ImageKey(id), image, ImageKey(id));
    GetAfterSet(items, ImageKey(id), image, ImageKey(other));
    GetAfterRemove(items, ImageKey(id), ImageKey(id));
    GetAfterRemove(items, ImageKey(id), ImageKey(other));
    ImageKeyRoundTrip(id, "");
    ImageKeyRoundTrip(other, "");
  }

  /**
   * `saveReceiptImage`, from the compressed image on: the image goes under
   * the key of a new id, which is returned.
   */
  method SaveReceiptImage(storage: LocalStorage, compressed: string, now: nat, random: string) returns (imageId: string)
    requires storage.Valid()
    modifies storage
    ensures imageId == NewImageId(now, random)
    ensures storage.Valid() && storage.items == SetItem(old(storage.items), ImageKey(imageId), compressed)
  {
    imageId := NewImageId(now, random);
    storage.Set(ImageKey(imageId), compressed);
  }

  /** `deleteReceiptImage`. */
  method DeleteReceiptImage(storage: LocalStorage, imageId: string)
    requires storage.Valid()
    modifies storage
    ensures storage.Valid() && storage.items == RemoveItem(old(storage.items), ImageKey(imageId))
  {
    storage.Remove(ImageKey(imageId));
  }

  // ---------------------------------------------------------------------
  // Removing orphaned images
  // ---------------------------------------------------------------------

  /** A key to remove: an image key whose id is not in `active`. */
  predicate Orphan(active: seq<string>, key: string)
  {
    IsImageKey(key) && IdOf(key) !in active
  }

  function Survives(active: seq<string>): Item -> bool { (it: Item) => !Orphan(active, it.key) }

  /** The storage after the cleanup: every item but the orphaned images, in the same order. */
  function Cleaned(items: seq<Item>, active: seq<string>): seq<Item>
  {
    Filter(items, Survives(active))
  }

  /**
   * After the cleanup, every image left has an active id; what is left reads
   * as before, an orphaned image reads as absent, and a second cleanup
   * changes nothing.
   */
  lemma CleanedMeaning(items: seq<Item>, active: seq<string>, k: string)
    ensures forall i :: 0 <= i < |Cleaned(items, active)| && IsImageKey(Cleaned(items, active)[i].key) ==>
      IdOf(Cleaned(items, active)[i].key) in active
    ensures GetItem(Cleaned(items, active), k) == if Orphan(active, k) then None else GetItem(items, k)
    ensures Cleaned(Cleaned(items, active), active) == Cleaned(items, active)
  {
    GetCleaned(items, active, k);
    FilterAll(Cleaned(items, active), Survives(active));
  }

  lemma {:induction false} GetCleaned(items: seq<Item>, active: seq<string>, k: string)
    ensures GetItem(Cleaned(items, active), k) == if Orphan(active, k) then None else GetItem(items, k)
  {
    if items != [] {
      var n := |items| - 1;
      var init := items[..n];
      var last := items[n];
      GetCleaned(init, active, k);
      GetSnoc(init, last, k);
      assert items == init + [last];
      if Survives(active)(last) {
        GetSnoc(Cleaned(init, active), last, k);
      }
    }
  }

  /** The items the loop keeps once it has handled the keys in `done`. */
  function KeptAfter(active: seq<string>, done: seq<string>): Item -> bool
  {
    (it: Item) => !(it.key in done && Orphan(active, it.key))
  }

  /** One turn of the loop: removing `keys[i]` when it is orphaned extends the keys handled by that key. */
  lemma CleanupStep(orig: seq<Item>, active: seq<string>, keys: seq<string>, i: nat)
    requires i < |keys|
    ensures Orphan(active, keys[i]) ==>
      RemoveItem(Filter(orig, KeptAfter(active, keys[..i])), keys[i]) == Filter(orig, KeptAfter(active, keys[..i + 1]))
    ensures !Orphan(active, keys[i]) ==>
      Filter(orig, KeptAfter(active, keys[..i])) == Filter(orig, KeptAfter(active, keys[..i + 1]))
  {
    var done, key := keys[..i], keys[i];
    assert keys[..i + 1] == done + [key];
    if Orphan(active, key) {
      FilterTwice(orig, KeptAfter(active, done), KeyIsNot(key), KeptAfter(active, done + [key]));
    } else {
      FilterCongruent(orig, KeptAfter(active, done), KeptAfter(active, done + [key]));
    }
  }

  function IsImageKeyTest(key: string): bool { IsImageKey(key) }

  /** Once every image key is handled, the loop has kept exactly the items the cleanup keeps. */
  lemma CleanupDone(orig: seq<Item>, active: seq<string>)
    ensures Filter(orig, KeptAfter(active, Filter(KeysOf(orig), IsImageKeyTest))) == Cleaned(orig, active)
  {
    var imageKeys := Filter(KeysOf(orig), IsImageKeyTest);
    KeysOfAt(orig);
    forall k | 0 <= k < |orig|
      ensures KeptAfter(active, imageKeys)(orig[k]) == Survives(active)(orig[k])
    {
      if Orphan(active, orig[k].key) {
        assert KeysOf(orig)[k] == orig[k].key;
      }
    }
    FilterCongruent(orig, KeptAfter(active, imageKeys), Survives(active));
  }

  /** The body of the cleanup loop: the image key `key` is removed when its id is not active. */
  method RemoveIfOrphan(storage: LocalStorage, active: seq<string>, key: string)
    requires storage.Valid() && IsImageKey(key)
    modifies storage
    ensures storage.Valid()
    ensures storage.items == if Orphan(active, key) then RemoveItem(old(storage.items), key) else old(storage.items)
  {
    var imageId := IdOf(key);
    if imageId !in active {
      storage.Remove(key);
    }
  }

  /** `cleanupOrphanedImages`: the loop over the image keys. */
  method CleanupOrphanedImages(storage: LocalStorage, active: seq<string>)
    requires storage.Valid()
    modifies storage
    ensures storage.Valid() && storage.items == Cleaned(old(storage.items), active)
  {
    ghost var orig := storage.items;
    var imageKeys := Filter(KeysOf(storage.items), IsImageKeyTest);
    FilterAll(orig, KeptAfter(active, []));
    for i := 0 to |imageKeys|
      invariant storage.Valid()
      invariant storage.items == Filter(orig, KeptAfter(active, imageKeys[..i]))
    {
      CleanupStep(orig, active, imageKeys, i);
      RemoveIfOrphan(storage, active, imageKeys[i]);
    }
    assert imageKeys[..|imageKeys|] == imageKeys;
    CleanupDone(orig, active);
  }

  // ---------------------------------------------------------------------
  // Space taken by images
  // ---------------------------------------------------------------------

  /** The total length of the texts of `items`. */
  function TextLength(items: seq<Item>): nat
  {
    if items == [] then 0 else TextLength(items[..|items| - 1]) + |items[|items| - 1].value|
  }

  function IsImageItem(it: Item): bool { IsImageKey(it.key) }

  /** The space the images take: the lengths of the texts stored under image keys. */
  function ImagesSize(items: seq<Item>): nat
  {
    TextLength(Filter(items, IsImageItem))
  }

  lemma {:induction false} TextLengthConcat(a: seq<Item>, b: seq<Item>)
    ensures TextLength(a + b) == TextLength(a) + TextLength(b)
  {
    if b == [] {
      assert a + b == a;
    } else {
      var n := |b| - 1;
      assert (a + b)[..|a + b| - 1] == a + b[..n];
      assert (a + b)[|a + b| - 1] == b[n];
      TextLengthConcat(a, b[..n]);
    }
  }

  /** Dropping items never adds to the total length. */
  lemma {:induction false} TextLengthFilter(items: seq<Item>, p: Item -> bool)
    ensures TextLength(Filter(items, p)) <= TextLength(items)
  {
    if items != [] {
      var n := |items| - 1;
      TextLengthFilter(items[..n], p);
      if p(items[n]) {
        TextLengthConcat(Filter(items[..n], p), [items[n]]);
        assert [items[n]][..0] == [];
      }
    }
  }

  function ImageSurvives(active: seq<string>): Item -> bool
  {
    (it: Item) => IsImageKey(it.key) && !Orphan(active, it.key)
  }

  /** The cleanup never makes the images take more space, and with no active id it leaves none. */
  lemma CleanupShrinks(items: seq<Item>, active: seq<string>)
    ensures ImagesSize(Cleaned(items, active)) <= ImagesSize(items)
    ensures ImagesSize(Cleaned(items, [])) == 0
  {
    var images := Filter(items, IsImageItem);
    FilterTwice(items, Survives(active), IsImageItem, ImageSurvives(active));
    FilterTwice(items, IsImageItem, Survives(active), ImageSurvives(active));
    TextLengthFilter(images, Survives(active));
    FilterTwice(items, Survives([]), IsImageItem, ImageSurvives([]));
    FilterTwice(items, IsImageItem, Survives([]), ImageSurvives([]));
    FilterNone(images, Survives([]));
  }

  /** The image keys, in storage order, are the keys of the image items. */
  lemma {:induction false} ImageKeysOfItems(items: seq<Item>)
    ensures Filter(KeysOf(items), IsImageKeyTest) == KeysOf(Filter(items, IsImageItem))
  {
    if items != [] {
      var n := |items| - 1;
      var init := items[..n];
      ImageKeysOfItems(init);
      assert KeysOf(items)[..n] == KeysOf(init);
      if IsImageItem(items[n]) {
        assert KeysOf(Filter(items, IsImageItem)) == KeysOf(Filter(init, IsImageItem)) + [items[n].key];
      }
    }
  }

  lemma TextLengthPrefix(items: seq<Item>, i: nat)
    requires i < |items|
    ensures TextLength(items[..i + 1]) == TextLength(items[..i]) + |items[i].value|
  {
    assert items[..i + 1][..i] == items[..i];
  }

  lemma ImageKeyCount(items: seq<Item>)
    ensures |Filter(KeysOf(items), IsImageKeyTest)| == |Filter(items, IsImageItem)|
  {
    ImageKeysOfItems(items);
  }

  /** Turn `i` of the size loop reads back the text of the `i`-th image item. */
  lemma SizeStep(items: seq<Item>, i: nat)
    requires UniqueKeys(items) && i < |Filter(items, IsImageItem)|
    ensures i < |Filter(KeysOf(items), IsImageKeyTest)|
    ensures GetItem(items, Filter(KeysOf(items), IsImageKeyTest)[i]) == Some(Filter(items, IsImageItem)[i].value)
    ensures TextLength(Filter(items, IsImageItem)[..i + 1])
      == TextLength(Filter(items, IsImageItem)[..i]) + |Filter(items, IsImageItem)[i].value|
  {
    var images := Filter(items, IsImageItem);
    ImageKeysOfItems(items);
    assert images[i] in items;
    var j :| 0 <= j < |items| && items[j] == images[i];
    GetStored(items, j);
    TextLengthPrefix(images, i);
  }

  /** `getImagesStorageSize`: the loop over the image keys, reading each one back. */
  method GetImagesStorageSize(storage: LocalStorage) returns (totalSize: nat)
    requires storage.Valid()
    ensures totalSize == ImagesSize(storage.items)
  {
    var imageKeys := Filter(KeysOf(storage.items), IsImageKeyTest);
    ghost var images := Filter(storage.items, IsImageItem);
    ImageKeyCount(storage.items);
    totalSize := 0;
    for i := 0 to |imageKeys|
      invariant |imageKeys| == |images|
      invariant totalSize == TextLength(images[..i])
    {
      var value := storage.Get(imageKeys[i]);
      SizeStep(storage.items, i);
      if value.Some? && value.value != "" {
        totalSize := totalSize + |value.value|;
      }
    }
    assert images[..|images|] == images;
  }
}

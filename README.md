# MaterialMe card list, modelled in Dafny

MaterialMe shows a grid of sports cards. The user can drag cards to reorder
them, swipe them away, and press a button to get the original list back.
Two pieces of sequential logic sit under the Android glue, and this project
models both:

- **The card list of `MainActivity`.** `mSportsData` is the only record of
  display order. Four things change it, and each change is followed by a
  render hint to the adapter:
  - a drag swaps two positions;
  - a swipe removes one position, and only a left or right swipe counts;
  - populating or resetting clears the list and rebuilds it from three
    parallel resource arrays;
  - saving and restoring writes the list into the saved-instance-state
    Bundle and reads it back.
- **The `Sport` record and its Parcelable encoding.** `writeToParcel` writes
  title, info and image resource id in a fixed order. The private
  `Sport(Parcel)` constructor reads them back in the same order.

Files:

- `options.dfy`: module `Options`, with `Option`, which stands for a Java
  reference that may be null.
- `parcels.dfy`: module `Parcels`. It holds Java's 32-bit `int` as `int32`
  and an abstract Parcel. The Parcel is a class holding a sequence of tagged
  values (`Str` or `Int`) and a read cursor.
- `sport.dfy`: module `Sports`, for `Sport.java`. It holds the record and
  its getters, and `Encode`/`Decode` as specification functions. It also
  has `WriteToParcel` and `CreateFromParcel`, module-level methods that
  take a `Parcel` argument and are proved against those functions, and round-trip lemmas for one record and
  for a run of records.
- `bundle.dfy`: module `Bundles`. It holds the saved-state Bundle as a class
  over a map. A list is stored in its parcelled form: the size, then each
  record. A round-trip lemma covers the stored list.
- `main_activity.dfy`: module `Activity`. It holds the `MainActivity` class,
  whose fields are `sportsData`, `listState`, a ghost log of render hints,
  and the constant `res`: the three resource arrays, fixed for the
  activity's lifetime, which every `Cards(res)` contract refers to.
  Each logged hint carries a snapshot of the list at the moment the adapter
  gets it, so the log also shows that a hint always comes after its
  mutation. The module also has the ItemTouchHelper direction flags and
  `Recreate`, the save-then-restore round trip of a configuration change.
  Module `Scenario`, in the same file, is a client proved from the
  contracts alone: four cards, a move, a vertical swipe that is ignored, a
  horizontal swipe, and a reset.

## Model

| member | source | states |
|---|---|---|
| `Activity.MainActivity.OnMove` | app/src/main/java/com/example/android/materialme/MainActivity.java:102-108 | The list becomes `Swapped(old, from, to)`: length and every other position are unchanged. A `Moved(from, to)` hint over the already-swapped list is logged. The result is always `true`. |
| `Activity.Swapped` | app/src/main/java/com/example/android/materialme/MainActivity.java:105 | `Collections.swap`: same length. Position `i` holds the old `s[j]` and position `j` holds the old `s[i]`. Every other position is unchanged. |
| `Activity.SwapInvolution` | app/src/main/java/com/example/android/materialme/MainActivity.java:105 | Doing the same move twice restores the original list. |
| `Activity.SwapSameIndex` | app/src/main/java/com/example/android/materialme/MainActivity.java:105 | A move with `from == to` changes nothing. |
| `Activity.SwapPermutes` | app/src/main/java/com/example/android/materialme/MainActivity.java:105 | A move keeps the same multiset of cards. |
| `Activity.MainActivity.OnSwiped` | app/src/main/java/com/example/android/materialme/MainActivity.java:111-114 | The list becomes `RemovedAt(old, pos)`. Then a `Removed(pos)` hint over the shortened list is logged. |
| `Activity.RemovedAt` | app/src/main/java/com/example/android/materialme/MainActivity.java:112 | `ArrayList.remove(int)`: the length drops by one. Elements before `i` are unchanged. Each later element moves one place left, keeping its relative order. |
| `Activity.RemovePermutes` | app/src/main/java/com/example/android/materialme/MainActivity.java:112 | The cards left plus the removed card are exactly the cards before the swipe. |
| `Activity.MainActivity.DispatchSwipe` | app/src/main/java/com/example/android/materialme/MainActivity.java:97-99 | A swipe whose direction is in the swipe flags removes the card and logs the hint. Any other direction leaves the list and the log unchanged. |
| `Activity.SwipeOnlyHorizontal` | app/src/main/java/com/example/android/materialme/MainActivity.java:99 | The swipe flags `LEFT \| RIGHT` allow exactly the directions Left and Right. |
| `Activity.DragAnyDirection` | app/src/main/java/com/example/android/materialme/MainActivity.java:98 | The drag flags allow all four directions. |
| `Activity.CardsUpTo` | app/src/main/java/com/example/android/materialme/MainActivity.java:132-135 | After `n` rounds of the loop, the list has length `n`, and card `i` is `Sport(titles[i], infos[i], images[i])`. |
| `Activity.Cards` | app/src/main/java/com/example/android/materialme/MainActivity.java:132-135 | The resource-built list: one card per title, and card `i` is `Sport(titles[i], infos[i], images[i])`. |
| `Activity.MainActivity.InitializeData` | app/src/main/java/com/example/android/materialme/MainActivity.java:122-142 | The list becomes `Cards(res)`, whatever it held before, so a second call leaves the same list and adds no duplicates. Then a `Refreshed` hint is logged. Requires `infos` and `images` to be at least as long as `titles`. |
| `Activity.MainActivity.ResetSports` | app/src/main/java/com/example/android/materialme/MainActivity.java:149-151 | After any moves and swipes, the list is again exactly the resource-built list, in order, and `Refreshed` is logged. |
| `Activity.MainActivity.OnSaveInstanceState` | app/src/main/java/com/example/android/materialme/MainActivity.java:159-164 | `listState` becomes the layout manager's state. The bundle gets the parcelled list under `LIST_DATA_KEY` and that state under `LIST_STATE_KEY`. Its other keys are unchanged. |
| `Activity.MainActivity.OnCreate` | app/src/main/java/com/example/android/materialme/MainActivity.java:65-79 | Without a saved state, the list is built from the resources and `Refreshed` is logged. With one, `listState` and the list are read back from the bundle and nothing is logged, so initialisation is skipped. A bundle without a readable list yields `false`. Only the fresh-start path, which runs `initializeData`, needs well-formed resources. |
| `Activity.MainActivity.constructor` | app/src/main/java/com/example/android/materialme/MainActivity.java:39-46 | Before `onCreate`, `listState` is null and no hint has been sent. Java leaves `mSportsData` null until `onCreate` assigns it; the model starts it empty, and no path reads it before that. The resources are fixed for the activity's lifetime but not read here. |
| `Activity.Recreate` | app/src/main/java/com/example/android/materialme/MainActivity.java:66-79 | Saving the list and restoring it from the bundle gives the same ordered list and the saved scroll state. The new activity has sent no hint, so the restore skipped re-initialisation. The old activity's `listState` is the saved state. |
| `Bundles.ListRoundTrip` | app/src/main/java/com/example/android/materialme/MainActivity.java:68 | A parcelled list reads back as the same list, wherever it sits in a stream. |
| `Bundles.DecodeList` | app/src/main/java/com/example/android/materialme/MainActivity.java:68 | A list read back has exactly the stored count of elements. A negative count reads as null. |
| `Bundles.DecodeNStaysFailed` | app/src/main/java/com/example/android/materialme/MainActivity.java:68 | Once one record fails to decode, decoding more records also fails. |
| `Bundles.WriteSportList` | app/src/main/java/com/example/android/materialme/MainActivity.java:162 | Appends the list's size, then each record's encoding, in list order. |
| `Bundles.ReadSportList` | app/src/main/java/com/example/android/materialme/MainActivity.java:68 | Reading the size and then that many records with `createFromParcel` gives exactly `DecodeList` from the cursor. On success the cursor ends just past the list: one count value plus three values per record. |
| `Bundles.Bundle.PutParcelableArrayList` | app/src/main/java/com/example/android/materialme/MainActivity.java:162 | The key maps to the parcelled list. No other key changes. |
| `Bundles.Bundle.PutParcelable` | app/src/main/java/com/example/android/materialme/MainActivity.java:163 | The key maps to the state, which may be null. No other key changes. |
| `Bundles.Bundle.GetParcelable` | app/src/main/java/com/example/android/materialme/MainActivity.java:67 | A non-null result is exactly what was stored under the key. A missing key, or one holding a list, gives null. A key holding a Parcelable gives exactly that Parcelable, which may be null. |
| `Bundles.Bundle.SavedList` | app/src/main/java/com/example/android/materialme/MainActivity.java:68 | A non-null list was stored under the key as a list, and its size fits a Java int. The body is the definition: the decoded list entry, otherwise null. |
| `Bundles.Bundle.GetParcelableArrayList` | app/src/main/java/com/example/android/materialme/MainActivity.java:68 | Unparcelling through a Parcel gives exactly `SavedList(key)`. |
| `Sports.GettersReturnConstructorArgs` | app/src/main/java/com/example/android/materialme/Sport.java:38-42 | `getTitle`, `getInfo` and `getImageResource` return exactly the constructor's arguments. The record is immutable, so `imageResource` never changes. |
| `Sports.GettersDetermineSport` | app/src/main/java/com/example/android/materialme/Sport.java:78-92 | The three getters together give back the whole record. |
| `Sports.DescribeContents` | app/src/main/java/com/example/android/materialme/Sport.java:56 | Always 0. |
| `Sports.NewArray` | app/src/main/java/com/example/android/materialme/Sport.java:69-71 | A non-negative size gives a fresh array of exactly that length, every slot null. A negative size fails, as Java throws. |
| `Sports.WriteToParcel` | app/src/main/java/com/example/android/materialme/Sport.java:58-62 | Appends exactly `Encode(s)` and nothing else. Leaves the read cursor alone. |
| `Sports.Encode` | app/src/main/java/com/example/android/materialme/Sport.java:58-62 | Exactly three values, which the reads of `Sport(Parcel)` (string, string, int) all accept. They carry title, info and imageResource, in that order. |
| `Sports.CreateFromParcel` | app/src/main/java/com/example/android/materialme/Sport.java:47-51 | Reads title, info, imageResource in turn. Yields a Sport exactly when `Decode` does, and then the cursor ends where `Decode` says. On failure, the cursor stops after the fields that could be read. |
| `Sports.ReadableFields` | app/src/main/java/com/example/android/materialme/Sport.java:48-50 | Counts how many of the three reads succeed before the first failure (at most 3). Every value it counts lies inside the stream. |
| `Sports.Decode` | app/src/main/java/com/example/android/materialme/Sport.java:47-51 | Succeeds exactly when all three reads do. Then it consumes exactly three values, and those values are the encoding of the decoded Sport. |
| `Sports.DecodeEncode` | app/src/main/java/com/example/android/materialme/Sport.java:47-62 | Decoding an encoded Sport, at any offset and with anything after it, gives the same title, info and imageResource. It stops right after the three values. |
| `Sports.EncodeAll` | app/src/main/java/com/example/android/materialme/Sport.java:58-62 | Encoding `n` records gives exactly `3n` values. |
| `Sports.DecodeN` | app/src/main/java/com/example/android/materialme/Sport.java:47-51 | Decoding `n` records one after another gives `n` records and moves the cursor exactly `3n` values. |
| `Sports.DecodeAllEncodeAll` | app/src/main/java/com/example/android/materialme/Sport.java:47-62 | Concatenated encodings decode back to the original records, in order, whatever comes before or after them. |
| `Parcels.Parcel.WriteString` | app/src/main/java/com/example/android/materialme/Sport.java:59-60 | Appends one string value. |
| `Parcels.Parcel.WriteInt` | app/src/main/java/com/example/android/materialme/Sport.java:61 | Appends one int value. |
| `Parcels.Parcel.ReadString` | app/src/main/java/com/example/android/materialme/Sport.java:48-49 | Returns the string at the cursor and advances one place, exactly when a string is there. Otherwise it reads nothing. |
| `Parcels.Parcel.ReadInt` | app/src/main/java/com/example/android/materialme/Sport.java:50 | Returns the int at the cursor and advances one place, exactly when an int is there. Otherwise it reads nothing. |

## Left out

- Android lifecycle and UI plumbing are not modelled, because they are framework calls with no logic of their own. This covers `setContentView`, `findViewById`, the RecyclerView, the GridLayoutManager, the column count and the adapter wiring (`MainActivity.java:50-63, 74-75, 116`). The adapter appears only as the log of render hints it receives.
- `SportsAdapter` is not part of this model.
- How ItemTouchHelper detects gestures is not modelled. The positions it reports are inputs. `OnMove`, `OnSwiped` and `DispatchSwipe` require them to be valid indices; the Java code would throw on a bad one. Only the swipe-direction filter from the flags is modelled. Relative directions (START/END) are not.
- The commented-out landscape swipe logic (`MainActivity.java:81-94`) is not live code.
- Resource loading is not modelled: `getStringArray`, `obtainTypedArray`, `getResourceId(i, 0)` and `recycle()`. The three arrays are given sequences, and image ids are already resolved. `InitializeData` and `ResetSports` require `infos` and `images` to be at least as long as `titles`, and so does `OnCreate` on its fresh-start path only; the Java code would throw on a shorter one. The constructor and the restore path make no demand on the resources.
- `listState` is an opaque framework Parcelable. It is carried through save and restore as an uninterpreted `ScrollState` token. In the code shown, a restored `listState` is stored and never applied to the layout manager, and the model does the same.
- The real Parcel and Bundle byte formats are not modelled. `Parcel` is a sequence of tagged values, and the Bundle stores a list as the size followed by the records. Per-item type tags, the creator's class name and `Parcelable.Creator` reflection are left out.
- `Parcels.Parcel.ReadString`: reading past the end or reading the wrong kind of value reports failure. Android's Parcel returns null (or 0 for `ReadInt`) and raw reads have no tags. With these tags, an empty list stream yields null, not an empty list.
- `Parcels.Parcel.WriteString`: writes always append, and there is a separate read cursor. Android's Parcel uses one data position for both reading and writing.
- Null strings are not modelled. Title and info are always non-null. Strings are sequences of Dafny characters, not UTF-16 units.
- `Activity.MainActivity.constructor`: Java's `mSportsData` is null until `onCreate` assigns it. The model starts it as the empty list. No code path reads the list before `onCreate` assigns it, so nothing observable differs.
- `Activity.MainActivity.OnCreate`: if a saved Bundle has no readable list, Java sets `mSportsData` to null. The model returns `false` and leaves the list empty.
- On a configuration change, Android may hand the same ArrayList object to the new activity without parcelling it. The model always goes through the parcelled form. Both give the same list by value, and aliasing is not modelled.
- Whatever `super.onSaveInstanceState` adds to the Bundle is not modelled. The model says only that no other key changes.

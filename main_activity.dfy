/**
 * The card list of MainActivity.java: the ordered list of Sports the grid
 * shows, the four operations that change it (drag, swipe, populate/reset,
 * save/restore) and the render hints each one sends to the adapter.
 */
module Activity {
  import opened Options
  import opened Parcels
  import opened Sports
  import opened Bundles

  const LIST_STATE_KEY: string := "recycler_list_state"
  const LIST_DATA_KEY: string := "sports_data"

  /** The adapter notifications: `notifyItemMoved`, `notifyItemRemoved`, `notifyDataSetChanged`. */
  datatype Hint = Moved(from: int, to: int) | Removed(pos: int) | Refreshed

  /** A hint together with the list as it stands when the adapter receives it. */
  datatype Notice = Notice(hint: Hint, shown: seq<Sport>)

  /** The four absolute directions of ItemTouchHelper and their flag bits. */
  datatype Direction = Up | Down | Left | Right

  const UP: bv32 := 1
  const DOWN: bv32 := 2
  const LEFT: bv32 := 4
  const RIGHT: bv32 := 8

  function Flag(d: Direction): (b: bv32)
  {
    match d
    case Up => UP
    case Down => DOWN
    case Left => LEFT
    case Right => RIGHT
  }

  /** The movement flags the activity hands to its ItemTouchHelper callback. */
  const DRAG_DIRS: bv32 := LEFT | RIGHT | DOWN | UP
  const SWIPE_DIRS: bv32 := LEFT | RIGHT

  predicate Allowed(flags: bv32, d: Direction)
  {
    flags & Flag(d) != 0
  }

  /** Only the two horizontal directions dismiss a card. */
  lemma SwipeOnlyHorizontal(d: Direction)
    ensures Allowed(SWIPE_DIRS, d) <==> d == Left || d == Right
  {
  }

  /** A card can be dragged in every direction. */
  lemma DragAnyDirection(d: Direction)
    ensures Allowed(DRAG_DIRS, d)
  {
  }

  /** The three parallel resource arrays: titles, infos and resolved image resource ids. */
  datatype Resources = Resources(titles: seq<string>, infos: seq<string>, images: seq<int32>)
  {
    /** `initializeData` indexes `infos` and `images` by every title index; a Java array length is an int. */
    predicate WellFormed()
    {
      |titles| <= |infos| && |titles| <= |images| && |titles| <= INT32_MAX
    }
  }

  /** The first `n` cards built from the resources, as the loop of `initializeData` appends them. */
  function CardsUpTo(res: Resources, n: nat): (r: seq<Sport>)
    requires res.WellFormed() && n <= |res.titles|
    ensures |r| == n
    ensures forall i :: 0 <= i < n ==> r[i] == Sport(res.titles[i], res.infos[i], res.images[i])
  {
    if n == 0 then [] else CardsUpTo(res, n - 1) + [Sport(res.titles[n - 1], res.infos[n - 1], res.images[n - 1])]
  }

  /** The resource-built list: one card per title, card `i` made of entry `i` of each array. */
  function Cards(res: Resources): (r: seq<Sport>)
    requires res.WellFormed()
    ensures |r| == |res.titles|
    ensures forall i :: 0 <= i < |r| ==> r[i] == Sport(res.titles[i], res.infos[i], res.images[i])
  {
    CardsUpTo(res, |res.titles|)
  }

  /** `Collections.swap`: the elements at `i` and `j` trade places and nothing else moves. */
  function Swapped<T>(s: seq<T>, i: nat, j: nat): (r: seq<T>)
    requires i < |s| && j < |s|
    ensures |r| == |s| && r[i] == s[j] && r[j] == s[i]
    ensures forall k :: 0 <= k < |s| && k != i && k != j ==> r[k] == s[k]
  {
    s[i := s[j]][j := s[i]]
  }

  /** Swapping the same pair twice restores the list. */
  lemma SwapInvolution<T>(s: seq<T>, i: nat, j: nat)
    requires i < |s| && j < |s|
    ensures Swapped(Swapped(s, i, j), i, j) == s
  {
  }

  /** Swapping a position with itself changes nothing. */
  lemma SwapSameIndex<T>(s: seq<T>, i: nat)
    requires i < |s|
    ensures Swapped(s, i, i) == s
  {
  }

  /** A swap neither adds nor loses a card. */
  lemma SwapPermutes<T>(s: seq<T>, i: nat, j: nat)
    requires i < |s| && j < |s|
    ensures multiset(Swapped(s, i, j)) == multiset(s)
  {
  }

  /** `ArrayList.remove(int)`: the element at `i` goes, the earlier ones stay, the later ones shift left by one. */
  function RemovedAt<T>(s: seq<T>, i: nat): (r: seq<T>)
    requires i < |s|
    ensures |r| == |s| - 1
    ensures forall k :: 0 <= k < i ==> r[k] == s[k]
    ensures forall k :: i <= k < |r| ==> r[k] == s[k + 1]
  {
    s[..i] + s[i + 1..]
  }

  /** A removal loses exactly the removed card. */
  lemma RemovePermutes<T>(s: seq<T>, i: nat)
    requires i < |s|
    ensures multiset(RemovedAt(s, i)) + multiset{s[i]} == multiset(s)
  {
    assert s == s[..i] + [s[i]] + s[i + 1..];
  }

  class MainActivity {
    /** The resource arrays, the same on every call of `initializeData`. */
    const res: Resources
    /** `mSportsData`: the display order of the cards. */
    var sportsData: seq<Sport>
    /** `listState`: the layout manager's saved scroll state, or null. */
    var listState: Option<ScrollState>
    /** Every render hint sent to the adapter so far, in order. */
    ghost var notices: seq<Notice>

    /** The list's size fits a Java int, as an ArrayList's does. */
    ghost predicate Valid()
      reads this
    {
      |sportsData| <= INT32_MAX
    }

    /**
     * The activity as the framework instantiates it, before `onCreate`.  Java
     * leaves `mSportsData` null here; the model starts it empty, and no path
     * reads it before `onCreate` assigns it.
     */
    constructor (res: Resources)
      ensures Valid() && this.res == res
      ensures sportsData == [] && listState == None && notices == []
    {
      this.res := res;
      sportsData := [];
      listState := None;
      notices := [];
    }

    /**
     * `onCreate`: with a saved state, restores the scroll state and the list
     * and does not rebuild it; without one, builds the list from the
     * resources.  A saved state without a readable list yields `false`, where
     * the Java code would go on with a null list.
     */
    method OnCreate(savedInstanceState: Bundle?) returns (ok: bool)
      requires Valid()
      requires savedInstanceState == null ==> res.WellFormed()
      modifies this`sportsData, this`listState, this`notices
      ensures Valid()
      ensures savedInstanceState == null ==>
        ok && listState == old(listState) && sportsData == Cards(res) &&
        notices == old(notices) + [Notice(Refreshed, sportsData)]
      ensures savedInstanceState != null ==>
        listState == savedInstanceState.GetParcelable(LIST_STATE_KEY) &&
        notices == old(notices) &&
        ok == savedInstanceState.SavedList(LIST_DATA_KEY).Some? &&
        sportsData == (if ok then savedInstanceState.SavedList(LIST_DATA_KEY).value else [])
    {
      if savedInstanceState != null {
        listState := savedInstanceState.GetParcelable(LIST_STATE_KEY);
        var data := savedInstanceState.GetParcelableArrayList(LIST_DATA_KEY);
        ok := data.Some?;
        sportsData := if ok then data.value else [];
      } else {
        sportsData := [];
        InitializeData();
        ok := true;
      }
    }

    /** `onMove`: swaps the two reported positions, then reports the move; always accepts it. */
    method OnMove(from: int, to: int) returns (r: bool)
      requires Valid()
      requires 0 <= from < |sportsData| && 0 <= to < |sportsData|
      modifies this`sportsData, this`notices
      ensures Valid() && r
      ensures sportsData == Swapped(old(sportsData), from, to)
      ensures notices == old(notices) + [Notice(Moved(from, to), sportsData)]
    {
      var moved := sportsData[from];
      sportsData := sportsData[from := sportsData[to]];
      sportsData := sportsData[to := moved];
      notices := notices + [Notice(Moved(from, to), sportsData)];
      r := true;
    }

    /** `onSwiped`: removes the card at the reported position, then reports the removal. */
    method OnSwiped(pos: int, direction: Direction)
      requires Valid()
      requires 0 <= pos < |sportsData|
      modifies this`sportsData, this`notices
      ensures Valid()
      ensures sportsData == RemovedAt(old(sportsData), pos)
      ensures notices == old(notices) + [Notice(Removed(pos), sportsData)]
    {
      sportsData := sportsData[..pos] + sportsData[pos + 1..];
      notices := notices + [Notice(Removed(pos), sportsData)];
    }

    /**
     * A completed swipe as the ItemTouchHelper delivers it: only a direction in
     * the swipe flags reaches `onSwiped`; any other leaves the list alone.
     */
    method DispatchSwipe(pos: int, direction: Direction)
      requires Valid()
      requires 0 <= pos < |sportsData|
      modifies this`sportsData, this`notices
      ensures Valid()
      ensures Allowed(SWIPE_DIRS, direction) ==>
        sportsData == RemovedAt(old(sportsData), pos) &&
        notices == old(notices) + [Notice(Removed(pos), sportsData)]
      ensures !Allowed(SWIPE_DIRS, direction) ==>
        sportsData == old(sportsData) && notices == old(notices)
    {
      if Allowed(SWIPE_DIRS, direction) {
        OnSwiped(pos, direction);
      }
    }

    /**
     * `initializeData`: clears the list, appends one card per title, then asks
     * for a full refresh.  The result does not depend on the old list, so a
     * second call leaves the same list and nothing is duplicated.
     */
    method InitializeData()
      requires Valid()
      requires res.WellFormed()
      modifies this`sportsData, this`notices
      ensures Valid()
      ensures sportsData == Cards(res)
      ensures notices == old(notices) + [Notice(Refreshed, sportsData)]
    {
      sportsData := [];
      var i := 0;
      while i < |res.titles|
        invariant 0 <= i <= |res.titles|
        invariant sportsData == CardsUpTo(res, i)
        invariant notices == old(notices)
      {
        sportsData := sportsData + [Sport(res.titles[i], res.infos[i], res.images[i])];
        i := i + 1;
      }
      notices := notices + [Notice(Refreshed, sportsData)];
    }

    /** `resetSports`, the button handler: whatever was moved or dismissed, the resource-built list is back. */
    method ResetSports()
      requires Valid()
      requires res.WellFormed()
      modifies this`sportsData, this`notices
      ensures Valid()
      ensures sportsData == Cards(res)
      ensures notices == old(notices) + [Notice(Refreshed, sportsData)]
    {
      InitializeData();
    }

    /**
     * `onSaveInstanceState`: takes the layout manager's state `layoutState`,
     * then stores the list and that state under their two keys.
     */
    method OnSaveInstanceState(outState: Bundle, layoutState: Option<ScrollState>)
      requires Valid()
      modifies this`listState, outState
      ensures Valid()
      ensures listState == layoutState
      ensures outState.entries ==
        old(outState.entries)[LIST_DATA_KEY := ListEntry(EncodeList(sportsData))][LIST_STATE_KEY := ParcelableEntry(layoutState)]
    {
      listState := layoutState;
      outState.PutParcelableArrayList(LIST_DATA_KEY, sportsData);
      outState.PutParcelable(LIST_STATE_KEY, listState);
    }
  }

  /**
   * A configuration change: the activity saves its state into a new Bundle
   * and a new activity is created from it.  The new activity shows the same
   * cards in the same order and holds the saved scroll state, and it sends no
   * refresh, because restoring skips `initializeData`.
   */
  method Recreate(activity: MainActivity, layoutState: Option<ScrollState>) returns (next: MainActivity)
    requires activity.Valid()
    modifies activity`listState
    ensures activity.listState == layoutState
    ensures fresh(next) && next.Valid() && next.res == activity.res
    ensures next.sportsData == activity.sportsData
    ensures next.listState == layoutState
    ensures next.notices == []
  {
    ghost var cards := activity.sportsData;
    var outState := new Bundle();
    activity.OnSaveInstanceState(outState, layoutState);
    assert LIST_DATA_KEY != LIST_STATE_KEY;
    assert outState.entries[LIST_DATA_KEY] == ListEntry(EncodeList(cards));
    assert outState.GetParcelable(LIST_STATE_KEY) == layoutState;
    ListRoundTrip([], cards, []);
    assert [] + EncodeList(cards) + [] == EncodeList(cards);
    assert outState.SavedList(LIST_DATA_KEY) == Some(cards);
    next := new MainActivity(activity.res);
    var ok := next.OnCreate(outState);
  }
}

/**
 * A client of the activity: four cards are loaded, dragged and dismissed,
 * then reset, using only the contracts above.
 */
module Scenario {
  import opened Sports
  import opened Activity

  method DragDismissReset()
  {
    var res := Resources(["A", "B", "C", "D"], ["a", "b", "c", "d"], [1, 2, 3, 4]);
    var a, b, c, d := Sport("A", "a", 1), Sport("B", "b", 2), Sport("C", "c", 3), Sport("D", "d", 4);
    var activity := new MainActivity(res);
    var ok := activity.OnCreate(null);
    assert activity.sportsData == [a, b, c, d];

    var accepted := activity.OnMove(0, 2);
    assert activity.sportsData == [c, b, a, d];

    activity.DispatchSwipe(1, Up);
    assert activity.sportsData == [c, b, a, d];

    activity.DispatchSwipe(1, Right);
    assert activity.sportsData == [c, a, d];

    activity.ResetSports();
    assert activity.sportsData == [a, b, c, d];
    assert |activity.notices| == 4;
  }
}

/**
 * The dashboard header (src/components/shared/Header.tsx): the avatar
 * initials, who sees the low-stock bell, and the low-stock popover state.
 * The GET of /reports/stock-summary is an input.
 */
module Header {
  import opened Wrappers
  import opened Types
  import Text
  import Auth

  /** `n[0]` for each word, joined with "": an empty word's `undefined` prints as nothing. */
  function FirstChars(words: seq<string>): (r: string)
    ensures |r| <= |words|
  {
    if words == [] then ""
    else (if words[0] == "" then "" else [words[0][0]]) + FirstChars(words[1..])
  }

  const UnknownInitials: string := "??"

  /** `getInitials`: "??" for a missing or empty name, else the upper-cased first letters of the space-separated words. */
  function GetInitials(name: Option<string>): (r: string)
    ensures name == None || name == Some("") ==> r == UnknownInitials
  {
    if name.None? || name.value == "" then UnknownInitials
    else Text.ToUpper(FirstChars(Text.Split(name.value, ' ')))
  }

  /**
   * An independent reading of the initials: the characters of `s` that are
   * not a space and come first or right after a space. `afterSpace` says
   * whether the previous character was a space (true at the start).
   */
  function WordStarts(s: string, afterSpace: bool): (r: string)
    ensures |r| <= |s|
    ensures forall i :: 0 <= i < |r| ==> r[i] != ' '
  {
    if s == [] then ""
    else (if s[0] != ' ' && afterSpace then [s[0]] else "") + WordStarts(s[1..], s[0] == ' ')
  }

  /** Splitting on spaces and taking first letters picks exactly the word starts. */
  lemma {:induction false} FirstCharsAreWordStarts(s: string)
    ensures FirstChars(Text.Split(s, ' ')) == WordStarts(s, true)
    ensures FirstChars(Text.Split(s, ' ')[1..]) == WordStarts(s, false)
    decreases |s|
  {
    if s != [] {
      var rest := Text.Split(s[1..], ' ');
      FirstCharsAreWordStarts(s[1..]);
      if s[0] == ' ' {
        assert Text.Split(s, ' ') == [""] + rest;
        assert ([""] + rest)[1..] == rest;
      } else {
        var head := [s[0]] + rest[0];
        assert Text.Split(s, ' ') == [head] + rest[1..];
        assert ([head] + rest[1..])[1..] == rest[1..];
        assert head[0] == s[0];
      }
    }
  }

  /** The initials of a non-empty name are the upper-cased word starts, so there are no more of them than words and none is a space. */
  lemma InitialsAreWordStarts(name: string)
    requires name != ""
    ensures GetInitials(Some(name)) == Text.ToUpper(WordStarts(name, true))
    ensures |GetInitials(Some(name))| <= |name|
  {
    FirstCharsAreWordStarts(name);
  }

  /** A space always ends a word, whatever came before it. */
  lemma SpaceStartsWord(s: string, afterSpace: bool)
    ensures WordStarts([' '] + s, afterSpace) == WordStarts(s, true)
  {
    assert ([' '] + s)[1..] == s;
  }

  /** Doubling any space of a string leaves its word starts unchanged. */
  lemma {:induction false} DoubledSpaceIgnored(a: string, b: string, afterSpace: bool)
    ensures WordStarts(a + [' ', ' '] + b, afterSpace) == WordStarts(a + [' '] + b, afterSpace)
    decreases |a|
  {
    if a == [] {
      assert a + [' ', ' '] + b == [' '] + ([' '] + b);
      assert a + [' '] + b == [' '] + b;
      SpaceStartsWord([' '] + b, afterSpace);
      SpaceStartsWord(b, true);
      SpaceStartsWord(b, afterSpace);
    } else {
      DoubledSpaceIgnored(a[1..], b, a[0] == ' ');
      assert (a + [' ', ' '] + b)[1..] == a[1..] + [' ', ' '] + b;
      assert (a + [' '] + b)[1..] == a[1..] + [' '] + b;
    }
  }

  /** Repeated spaces between or around words add no initials: a run of two spaces reads as one. */
  lemma RepeatedSpacesIgnored(a: string, b: string)
    ensures GetInitials(Some(a + [' ', ' '] + b)) == GetInitials(Some(a + [' '] + b))
  {
    assert |a + [' ', ' '] + b| > 0 && |a + [' '] + b| > 0;
    InitialsAreWordStarts(a + [' ', ' '] + b);
    InitialsAreWordStarts(a + [' '] + b);
    DoubledSpaceIgnored(a, b, true);
  }

  /** A leading space adds no initial. */
  lemma LeadingSpaceIgnored(s: string)
    requires s != ""
    ensures GetInitials(Some([' '] + s)) == GetInitials(Some(s))
  {
    InitialsAreWordStarts([' '] + s);
    InitialsAreWordStarts(s);
    SpaceStartsWord(s, true);
  }

  /** The bell is shown to ADMIN and MANAGER only. */
  predicate ShowNotificationBell(user: Option<Auth.StoredUserProfile>) {
    user.Some? && (user.value.role == RoleName(ADMIN) || user.value.role == RoleName(MANAGER))
  }

  datatype LowStockItem = LowStockItem(id: int, name: string, sku: string, stockQuantity: int, reorderLevel: int)

  /** The stock-summary response: the count and the list may each be missing. */
  datatype StockSummary = SummaryOk(count: Option<int>, items: Option<seq<LowStockItem>>) | SummaryFailed

  const MaxShown: nat := 10

  /** `.slice(0, 10)`: the first ten items, in order. */
  function FirstItems(items: seq<LowStockItem>): (r: seq<LowStockItem>)
    ensures |r| <= MaxShown
    ensures |r| == if |items| < MaxShown then |items| else MaxShown
    ensures r == items[..|r|]
  {
    if |items| <= MaxShown then items else items[..MaxShown]
  }

  /** The "...and N more" line: shown iff the count exceeds the list shown, with the difference. */
  function MoreCount(count: int, shown: seq<LowStockItem>): (more: Option<int>)
    ensures more.Some? <==> count > |shown|
    ensures more.Some? ==> more.value > 0 && more.value + |shown| == count
  {
    if count > |shown| then Some(count - |shown|) else None
  }

  /** With a full list behind the count, "more" appears exactly past ten items and counts the hidden ones. */
  lemma MoreCountsHidden(items: seq<LowStockItem>)
    ensures MoreCount(|items|, FirstItems(items)) == if |items| > MaxShown then Some(|items| - MaxShown) else None
  {
  }

  class Notifications {
    var lowStockCount: int
    var lowStockItems: seq<LowStockItem>
    var loadingNotifications: bool

    /** The popover never holds more than ten items. */
    predicate Valid()
      reads this
    {
      |lowStockItems| <= MaxShown
    }

    constructor ()
      ensures Valid()
      ensures lowStockCount == 0 && lowStockItems == [] && loadingNotifications
    {
      lowStockCount := 0;
      lowStockItems := [];
      loadingNotifications := true;
    }

    /**
     * The effect on `showNotificationBell`: only when the bell shows is the
     * summary fetched; a missing count becomes 0, at most the first ten items
     * are kept, and a failure leaves 0 and no items.
     */
    method OnBellChanged(user: Option<Auth.StoredUserProfile>, response: StockSummary) returns (fetched: bool)
      requires Valid()
      modifies this
      ensures Valid()
      ensures fetched <==> ShowNotificationBell(user)
      ensures !loadingNotifications
      ensures !fetched ==> lowStockCount == old(lowStockCount) && lowStockItems == old(lowStockItems)
      ensures fetched && response.SummaryFailed? ==> lowStockCount == 0 && lowStockItems == []
      ensures fetched && response.SummaryOk? ==>
        && lowStockCount == response.count.GetOr(0)
        && lowStockItems == FirstItems(response.items.GetOr([]))
    {
      var showBell := user.Some? && (user.value.role == RoleName(ADMIN) || user.value.role == RoleName(MANAGER));
      if showBell {
        loadingNotifications := true;
        if response.SummaryOk? {
          var count := if response.count.Some? && response.count.value != 0 then response.count.value else 0;
          lowStockCount := count;
          var items := if response.items.Some? then response.items.value else [];
          lowStockItems := FirstItems(items);
        } else {
          lowStockCount := 0;
          lowStockItems := [];
        }
        loadingNotifications := false;
        fetched := true;
      } else {
        loadingNotifications := false;
        fetched := false;
      }
    }
  }
}

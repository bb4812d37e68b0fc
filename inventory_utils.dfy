/**
 * The inventory client's stock and text helpers: the low-stock test, the
 * stock status badge, text truncation, initials of a name and the
 * "time ago" label.
 */
module InventoryUtils {
  import opened Seqs
  import opened Text
  import InventoryStorage

  type JsNumber = InventoryStorage.JsNumber

  /** The client's low-stock test: a missing or null threshold is never low. */
  predicate IsLowStock(quantity: int, threshold: JsNumber)
  {
    if threshold.Null? || threshold.Undefined? then false else quantity < threshold.n
  }

  /**
   * The client's test agrees with the server's query except for an item
   * whose threshold was never set (undefined) and whose quantity is
   * negative: the server lists it as low, the client does not.
   */
  lemma ClientAgreesWithServer(x: InventoryStorage.Item)
    ensures IsLowStock(x.quantity, x.lowStockThreshold) != InventoryStorage.IsLowStockStored(x)
            <==> x.lowStockThreshold.Undefined? && x.quantity < 0
  {
  }

  const Neutral := "bg-neutral-100 text-neutral-800"
  const Destructive := "bg-destructive/10 text-destructive"
  const Warning := "bg-warning/10 text-warning"
  const Success := "bg-success/10 text-success"

  /** The badge classes for a stock level: no threshold, out of stock, low, or fine, checked in that order. */
  function GetStockStatusColor(quantity: int, threshold: JsNumber): (r: string)
    ensures r in {Neutral, Destructive, Warning, Success}
  {
    if threshold.Null? || threshold.Undefined? then Neutral
    else if quantity <= 0 then Destructive
    else if quantity < threshold.n then Warning
    else Success
  }

  /** The badge is neutral exactly when there is no threshold, and out of stock is checked before the threshold. */
  lemma StockColorCases(quantity: int, threshold: JsNumber)
    ensures GetStockStatusColor(quantity, threshold) == Neutral <==> !threshold.Num?
    ensures threshold.Num? && quantity <= 0 ==> GetStockStatusColor(quantity, threshold) == Destructive
    ensures threshold.Num? && quantity > 0 ==>
              (GetStockStatusColor(quantity, threshold) == Warning <==> IsLowStock(quantity, threshold))
    ensures threshold.Num? && quantity > 0 ==>
              (GetStockStatusColor(quantity, threshold) == Success <==> !IsLowStock(quantity, threshold))
  {
    assert Neutral != Destructive && Neutral != Warning && Neutral != Success;
    assert Warning != Success;
  }

  const Ellipsis := "..."

  /** `text.length <= maxLength ? text : text.slice(0, maxLength) + "..."` */
  function TruncateText(text: string, maxLength: int): (r: string)
    ensures |text| <= maxLength ==> r == text
    ensures 0 <= maxLength < |text| ==> |r| == maxLength + 3 && r[..maxLength] == text[..maxLength]
    ensures |text| > maxLength ==> |r| >= 3 && r[|r| - 3..] == Ellipsis && r[..|r| - 3] <= text
  {
    if |text| <= maxLength then text else Slice(text, maxLength) + Ellipsis
  }

  /** `s.charAt(0)`: the first character, or empty. */
  function FirstChar(s: string): string
  {
    if s == [] then [] else [s[0]]
  }

  /** The upper-cased first letters of the first and last space-separated words. */
  function GetInitials(name: string): (r: string)
    ensures name == [] ==> r == []
    ensures |r| <= 2
  {
    if name == [] then []
    else
      var parts := SplitOn(name, ' ');
      if |parts| == 1 then ToUpper(FirstChar(parts[0]))
      else ToUpper(FirstChar(parts[0]) + FirstChar(parts[|parts| - 1]))
  }

  /** A single word gives its first letter, upper-cased. */
  lemma InitialsOfOneWord(name: string)
    requires name != [] && ' ' !in name
    ensures GetInitials(name) == [ToUpperChar(name[0])]
  {
    SplitWithoutSep(name, ' ');
  }

  /** Several words give the first letters of the first and the last word, upper-cased. */
  lemma InitialsOfSeveralWords(first: string, middle: string, last: string)
    requires first != [] && first[0] != ' ' && last != [] && ' ' !in last
    ensures GetInitials(first + middle + [' '] + last) == [ToUpperChar(first[0]), ToUpperChar(last[0])]
  {
    var name := first + middle + [' '] + last;
    SplitAppend(first + middle, last, ' ');
    SplitWithoutSep(last, ' ');
    SplitFirstPart(first + middle, ' ');
    var parts := SplitOn(name, ' ');
    assert parts[|parts| - 1] == last;
    assert parts[0] == SplitOn(first + middle, ' ')[0];
  }

  /** The chained floor divisions of `getTimeAgo` are floor divisions of the milliseconds by a minute, an hour and a day. */
  lemma NestedDivisions(x: int)
    ensures x / 1000 / 60 == x / 60000
    ensures x / 60000 / 60 == x / 3600000
    ensures x / 3600000 / 24 == x / 86400000
  {
  }

  const JustNow := "just now"
  const MinutesAgo := "m ago"
  const HoursAgo := "h ago"
  const DaysAgo := "d ago"

  const Second := 1000
  const Minute := 60 * Second
  const Hour := 60 * Minute
  const Day := 24 * Hour

  /**
   * The label for the time elapsed between `past` and `now` (milliseconds);
   * thirty days or more fall back to the locale date, passed in as `localeDate`.
   */
  function GetTimeAgo(now: int, past: int, localeDate: string): (r: string)
    ensures now - past < Minute ==> r == JustNow
    ensures Minute <= now - past < Hour ==>
              1 <= (now - past) / Minute < 60 && r == NatToString((now - past) / Minute) + MinutesAgo
    ensures Hour <= now - past < Day ==>
              1 <= (now - past) / Hour < 24 && r == NatToString((now - past) / Hour) + HoursAgo
    ensures Day <= now - past < 30 * Day ==>
              1 <= (now - past) / Day < 30 && r == NatToString((now - past) / Day) + DaysAgo
    ensures 30 * Day <= now - past ==> r == localeDate
  {
    var diffMs := now - past;
    var diffSecs := diffMs / 1000;
    var diffMins := diffSecs / 60;
    var diffHours := diffMins / 60;
    var diffDays := diffHours / 24;
    NestedDivisions(diffMs);
    if diffSecs < 60 then JustNow
    else if diffMins < 60 then NatToString(diffMins) + MinutesAgo
    else if diffHours < 24 then NatToString(diffHours) + HoursAgo
    else if diffDays < 30 then NatToString(diffDays) + DaysAgo
    else localeDate
  }
}

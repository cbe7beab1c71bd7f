/**
 * Product-card helpers that the catalog page (src/pages/Dashboard.tsx) and
 * the product page (src/pages/ProductDetail.tsx) each define identically:
 * the delivery line and the low-stock note.
 */
module Listing {
  import opened Types
  import opened Text

  function DayWord(days: int): string {
    if days == 1 then "day" else "days"
  }

  /** `getDeliveryText`: "Standard delivery", or "<FREE|Paid> delivery in N <day|days>". */
  function DeliveryText(info: Option<DeliveryInfo>): string {
    match info
    case None => "Standard delivery"
    case Some(d) => Lead(d.freeDelivery) + DaysPhrase(d.estimatedDays)
  }

  /** "FREE delivery in " or "Paid delivery in ". */
  function Lead(free: bool): string {
    if free then "FREE delivery in " else "Paid delivery in "
  }

  /** "N day" or "N days". */
  function DaysPhrase(days: int): string {
    IntToString(days) + " " + DayWord(days)
  }

  /** The longest prefix of `s` made of decimal digits. */
  function DigitPrefix(s: string): (r: string)
    ensures |r| <= |s| && r == s[..|r|] && AllDigits(r)
    ensures |r| < |s| ==> !IsDigit(s[|r|])
  {
    if s == [] || !IsDigit(s[0]) then [] else [s[0]] + DigitPrefix(s[1..])
  }

  lemma {:induction false} DigitPrefixOfConcat(a: string, b: string)
    requires AllDigits(a) && (b == [] || !IsDigit(b[0]))
    ensures DigitPrefix(a + b) == a
  {
    if a != [] {
      assert (a + b)[1..] == a[1..] + b;
      DigitPrefixOfConcat(a[1..], b);
    } else {
      assert a + b == b;
    }
  }

  function ParseDays(s: string, free: bool): Option<DeliveryInfo> {
    var digits := DigitPrefix(s);
    if digits == [] then None
    else
      var n := DecimalValue(digits);
      if s[|digits|..] == " " + DayWord(n) then Some(DeliveryInfo(free, n)) else None
  }

  /** Reads a delivery line back into the delivery information it was made from. */
  function ParseDeliveryText(s: string): Option<DeliveryInfo> {
    if StartsWith(s, "FREE delivery in ") then ParseDays(s[17..], true)
    else if StartsWith(s, "Paid delivery in ") then ParseDays(s[17..], false)
    else None
  }

  /**
   * The delivery line states the charge and the day count faithfully: parsing it
   * gives back the delivery information (for a non-negative day count), and the
   * unit is "day" exactly when the count is 1.
   */
  lemma DeliveryTextRoundTrip(d: DeliveryInfo)
    requires d.estimatedDays >= 0
    ensures ParseDeliveryText(DeliveryText(Some(d))) == Some(d)
  {
    var n: nat := d.estimatedDays;
    var lead, rest := Lead(d.freeDelivery), DaysPhrase(n);
    ParseDaysRoundTrip(n, d.freeDelivery);
    LeadSplit(lead, rest);
    if !d.freeDelivery {
      assert (lead + rest)[0] == lead[0] == 'P';
    }
  }

  lemma LeadSplit(lead: string, rest: string)
    requires |lead| == 17
    ensures StartsWith(lead + rest, lead) && (lead + rest)[17..] == rest
  {
    assert (lead + rest)[..|lead|] == lead;
  }

  /** The day count and its unit read back from "N day" / "N days". */
  lemma ParseDaysRoundTrip(n: nat, free: bool)
    ensures ParseDays(DaysPhrase(n), free) == Some(DeliveryInfo(free, n))
  {
    var digits := NatToString(n);
    var tail := " " + DayWord(n);
    assert DaysPhrase(n) == digits + tail;
    DigitPrefixOfConcat(digits, tail);
    DecimalRoundTrip(n);
    assert (digits + tail)[|digits|..] == tail;
  }

  /** Without delivery information the line is the fixed text, which is not a parsed form. */
  lemma StandardDeliveryText()
    ensures DeliveryText(None) == "Standard delivery"
    ensures ParseDeliveryText(DeliveryText(None)) == None
  {
    var s := DeliveryText(None);
    assert s[0] == 'S';
  }

  /**
   * The low-stock note: in stock and `stockCount` truthy (present and non-zero)
   * and below 10.
   */
  predicate LowStockNote(p: Product) {
    p.inStock && p.stockCount.Some? && p.stockCount.value != 0 && p.stockCount.value < 10
  }

  /** For a non-negative stock count, the note shows exactly when in stock with 1 to 9 left. */
  lemma LowStockNoteRange(p: Product)
    requires p.stockCount.Some? ==> p.stockCount.value >= 0
    ensures LowStockNote(p) <==> p.inStock && p.stockCount.Some? && 0 < p.stockCount.value < 10
  {
  }
}

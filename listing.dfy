/** The "All Properties" page (components/PropertyListing.tsx): a price read off the
    display string, and a three-part filter (type, maximum price, location) over the
    catalogue. The "Sort By" selector is stored by the page but never applied, so the
    visible list keeps catalogue order. */
module Listing {
  import opened Common
  import opened Text
  import opened Seqs
  import opened Catalogue

  /** A JavaScript number as far as the price filter sees it: a finite value or NaN. */
  datatype Num = Finite(value: real) | NaN

  predicate KeptInPrice(c: char) {
    IsDigit(c) || c == '.'
  }

  /** `priceStr.replace(/[^0-9.]/g, '')`: keeps only ASCII digits and dots. */
  function CleanPrice(s: string): (t: string)
    ensures |t| <= |s|
    decreases |s|
  {
    if s == [] then []
    else (if KeptInPrice(s[0]) then [s[0]] else []) + CleanPrice(s[1..])
  }

  lemma {:induction false} CleanPriceConcat(a: string, b: string)
    ensures CleanPrice(a + b) == CleanPrice(a) + CleanPrice(b)
    decreases |a|
  {
    if a != [] {
      assert (a + b)[0] == a[0] && (a + b)[1..] == a[1..] + b;
      CleanPriceConcat(a[1..], b);
    } else {
      assert a + b == b;
    }
  }

  lemma {:induction false} CleanPriceKeepsKept(s: string)
    requires forall i :: 0 <= i < |s| ==> KeptInPrice(s[i])
    ensures CleanPrice(s) == s
    decreases |s|
  {
    if s != [] {
      CleanPriceKeepsKept(s[1..]);
    }
  }

  lemma {:induction false} CleanPriceDropsOthers(s: string)
    requires forall i :: 0 <= i < |s| ==> !KeptInPrice(s[i])
    ensures CleanPrice(s) == ""
    decreases |s|
  {
    if s != [] {
      CleanPriceDropsOthers(s[1..]);
    }
  }

  /** The longest prefix of `t` made of digits. */
  function LeadingDigits(t: string): (d: string)
    ensures |d| <= |t| && d == t[..|d|]
    ensures forall i :: 0 <= i < |d| ==> IsDigit(d[i])
    ensures |d| == |t| || !IsDigit(t[|d|])
    decreases |t|
  {
    if |t| > 0 && IsDigit(t[0]) then [t[0]] + LeadingDigits(t[1..]) else []
  }

  function Pow10(n: nat): (p: nat)
    ensures p >= 1
  {
    if n == 0 then 1 else 10 * Pow10(n - 1)
  }

  /** `parseFloat` of a cleaned price string: the integer digits, then optionally a dot
      and fraction digits; reading stops at the next dot. No digit at all gives NaN. */
  function ParseCleanedDecimal(t: string): (r: Num)
    ensures r.Finite? ==> r.value >= 0.0
    ensures r == NaN <==> LeadingDigits(t) == [] && (t == [] || t[0] != '.' || LeadingDigits(t[1..]) == [])
  {
    var whole := LeadingDigits(t);
    var rest := t[|whole|..];
    var frac := if |rest| > 0 && rest[0] == '.' then LeadingDigits(rest[1..]) else [];
    if |whole| + |frac| == 0 then NaN
    else Finite(DecimalValue(whole, frac))
  }

  /** The value of the decimal numeral `whole.frac`. */
  function DecimalValue(whole: string, frac: string): (v: real)
    requires forall i :: 0 <= i < |whole| ==> IsDigit(whole[i])
    requires forall i :: 0 <= i < |frac| ==> IsDigit(frac[i])
    ensures v >= 0.0
  {
    var w, n, d := DigitsValue(whole) as real, DigitsValue(frac) as real, Pow10(|frac|) as real;
    assert n / d >= 0.0 by {
      QuotientNonNegative(n, d);
    }
    w + n / d
  }

  lemma QuotientNonNegative(n: real, d: real)
    requires n >= 0.0 && d > 0.0
    ensures n / d >= 0.0
  {
    assert n / d * d == n;
  }

  /** `parseFloat(...) * 100`; NaN stays NaN. */
  function Hundredfold(n: Num): (r: Num)
    ensures r.NaN? <==> n.NaN?
    ensures n.Finite? ==> r.value == 100.0 * n.value
  {
    match n
    case NaN => NaN
    case Finite(v) => Finite(100.0 * v)
  }

  /** `getPriceValue`: a price in lakhs. "Cr" is tested first and scales by 100; otherwise
      "L" reads the number as it is; a string with neither unit counts as 0. */
  function GetPriceValue(priceStr: string): (r: Num)
    ensures r.Finite? ==> r.value >= 0.0
    ensures Contains(priceStr, "Cr") ==> r == Hundredfold(ParseCleanedDecimal(CleanPrice(priceStr)))
    ensures !Contains(priceStr, "Cr") && Contains(priceStr, "L") ==> r == ParseCleanedDecimal(CleanPrice(priceStr))
    ensures !Contains(priceStr, "Cr") && !Contains(priceStr, "L") ==> r == Finite(0.0)
  {
    if Contains(priceStr, "Cr") then Hundredfold(ParseCleanedDecimal(CleanPrice(priceStr)))
    else if Contains(priceStr, "L") then ParseCleanedDecimal(CleanPrice(priceStr))
    else Finite(0.0)
  }

  /** `priceVal > filters.maxPrice`; every comparison with NaN is false. */
  predicate Exceeds(n: Num, maxPrice: int) {
    n.Finite? && n.value > maxPrice as real
  }

  /** The digits of a number are read back as that number. */
  lemma ParseOfRenderedNat(n: nat)
    ensures ParseCleanedDecimal(NatToString(n)) == Finite(n as real)
  {
    var d := NatToString(n);
    assert LeadingDigits(d) == d;
    DigitsValueOfNatToString(n);
  }

  lemma CleanPriceAround(prefix: string, d: string, suffix: string)
    requires CleanPrice(prefix) == "" && CleanPrice(suffix) == "" && CleanPrice(d) == d
    ensures CleanPrice(prefix + d + suffix) == d
  {
    CleanPriceConcat(prefix + d, suffix);
    CleanPriceConcat(prefix, d);
  }

  lemma CleanOfRenderedNat(prefix: string, n: nat, suffix: string)
    requires forall i :: 0 <= i < |prefix| ==> !KeptInPrice(prefix[i])
    requires forall i :: 0 <= i < |suffix| ==> !KeptInPrice(suffix[i])
    ensures CleanPrice(prefix + NatToString(n) + suffix) == NatToString(n)
  {
    var d := NatToString(n);
    assert forall i :: 0 <= i < |d| ==> KeptInPrice(d[i]);
    CleanPriceKeepsKept(d);
    CleanPriceDropsOthers(prefix);
    CleanPriceDropsOthers(suffix);
    CleanPriceAround(prefix, d, suffix);
  }

  /** A whole number of lakhs, written "₹ n L", is worth n. */
  lemma {:induction false} LakhPrice(n: nat)
    ensures GetPriceValue("₹ " + NatToString(n) + " L") == Finite(n as real)
  {
    var s := "₹ " + NatToString(n) + " L";
    assert 'C' !in s;
    NotContainsMissingChar(s, "Cr", 0);
    ContainsInSuffix("₹ " + NatToString(n), " L", "L");
    CleanOfRenderedNat("₹ ", n, " L");
    ParseOfRenderedNat(n);
  }

  /** A whole number of crores, written "₹ n Cr", is worth 100 n lakhs. */
  lemma {:induction false} CrorePrice(n: nat)
    ensures GetPriceValue("₹ " + NatToString(n) + " Cr") == Finite(100.0 * n as real)
  {
    ContainsInSuffix("₹ " + NatToString(n), " Cr", "Cr");
    CleanOfRenderedNat("₹ ", n, " Cr");
    ParseOfRenderedNat(n);
  }

  /** A run of digits followed by a non-digit is exactly the leading digits. */
  lemma {:induction false} LeadingDigitsOfRun(d: string, t: string)
    requires forall i :: 0 <= i < |d| ==> IsDigit(d[i])
    requires t == [] || !IsDigit(t[0])
    ensures LeadingDigits(d + t) == d
    decreases |d|
  {
    if d != [] {
      assert (d + t)[0] == d[0] && (d + t)[1..] == d[1..] + t;
      LeadingDigitsOfRun(d[1..], t);
    } else {
      assert d + t == t;
    }
  }

  /** `parseFloat` of the numeral `whole.frac` is its decimal value. */
  lemma ParseOfDecimal(whole: string, frac: string)
    requires forall i :: 0 <= i < |whole| ==> IsDigit(whole[i])
    requires forall i :: 0 <= i < |frac| ==> IsDigit(frac[i])
    requires |whole| + |frac| > 0
    ensures ParseCleanedDecimal(whole + "." + frac) == Finite(DecimalValue(whole, frac))
  {
    var t := whole + "." + frac;
    assert t == whole + ("." + frac);
    LeadingDigitsOfRun(whole, "." + frac);
    assert t[|whole|..] == "." + frac;
    assert ("." + frac)[1..] == frac;
    LeadingDigitsOfRun(frac, []);
    assert frac + [] == frac;
  }

  /** A numeral `whole.frac` is left as it is by the strip. */
  lemma CleanOfNumeral(whole: string, frac: string)
    requires forall i :: 0 <= i < |whole| ==> IsDigit(whole[i])
    requires forall i :: 0 <= i < |frac| ==> IsDigit(frac[i])
    ensures CleanPrice(whole + "." + frac) == whole + "." + frac
  {
    CleanPriceKeepsKept(whole);
    CleanPriceKeepsKept(frac);
    assert CleanPrice(".") == ".";
    CleanPriceConcat(whole, ".");
    CleanPriceConcat(whole + ".", frac);
  }

  /** Around a numeral `whole.frac`, text without digits or dots is stripped away. */
  lemma CleanOfDecimal(prefix: string, whole: string, frac: string, suffix: string)
    requires forall i :: 0 <= i < |prefix| ==> !KeptInPrice(prefix[i])
    requires forall i :: 0 <= i < |suffix| ==> !KeptInPrice(suffix[i])
    requires forall i :: 0 <= i < |whole| ==> IsDigit(whole[i])
    requires forall i :: 0 <= i < |frac| ==> IsDigit(frac[i])
    ensures CleanPrice(prefix + (whole + "." + frac) + suffix) == whole + "." + frac
  {
    CleanOfNumeral(whole, frac);
    CleanPriceDropsOthers(prefix);
    CleanPriceDropsOthers(suffix);
    CleanPriceAround(prefix, whole + "." + frac, suffix);
  }

  /** A decimal number of lakhs, written "₹ w.f L", is worth w.f. */
  lemma DecimalLakhPrice(whole: string, frac: string)
    requires forall i :: 0 <= i < |whole| ==> IsDigit(whole[i])
    requires forall i :: 0 <= i < |frac| ==> IsDigit(frac[i])
    requires |whole| + |frac| > 0
    ensures GetPriceValue("₹ " + whole + "." + frac + " L") == Finite(DecimalValue(whole, frac))
  {
    var s := "₹ " + whole + "." + frac + " L";
    assert 'C' !in s;
    NotContainsMissingChar(s, "Cr", 0);
    ContainsInSuffix("₹ " + whole + "." + frac, " L", "L");
    CleanOfDecimal("₹ ", whole, frac, " L");
    assert "₹ " + whole + "." + frac + " L" == "₹ " + (whole + "." + frac) + " L";
    ParseOfDecimal(whole, frac);
  }

  /** A decimal number of crores, written "₹ w.f Cr", is worth 100 times w.f lakhs. */
  lemma DecimalCroreValue(whole: string, frac: string)
    requires forall i :: 0 <= i < |whole| ==> IsDigit(whole[i])
    requires forall i :: 0 <= i < |frac| ==> IsDigit(frac[i])
    requires |whole| + |frac| > 0
    ensures GetPriceValue("₹ " + whole + "." + frac + " Cr") == Finite(100.0 * DecimalValue(whole, frac))
  {
    ContainsInSuffix("₹ " + whole + "." + frac, " Cr", "Cr");
    CleanOfDecimal("₹ ", whole, frac, " Cr");
    assert "₹ " + whole + "." + frac + " Cr" == "₹ " + (whole + "." + frac) + " Cr";
    ParseOfDecimal(whole, frac);
  }

  lemma HalfLakhValue()
    ensures DecimalValue("45", "5") == 45.5
  {
    assert DigitsValue("4") == 4;
    assert DigitsValue("45") == 45 && DigitsValue("5") == 5 && Pow10(1) == 10;
  }

  /** "₹ 45.5 L" is worth 45.5 lakhs. */
  lemma HalfLakhPrice()
    ensures GetPriceValue("₹ 45.5 L") == Finite(45.5)
  {
    assert "₹ 45.5 L" == "₹ " + "45" + "." + "5" + " L";
    DecimalLakhPrice("45", "5");
    HalfLakhValue();
  }

  /** The current filter settings of the sidebar. */
  datatype ListingFilters = ListingFilters(propertyType: string, maxPrice: int, location: string)

  /** The initial settings, which "Reset Filters" and "Clear Filters" restore. */
  const DefaultFilters := ListingFilters("All", 200, "")

  predicate TypeAllowed(f: ListingFilters, p: Property) {
    f.propertyType == "All" || TypeName(p.kind) == f.propertyType
  }

  predicate PriceAllowed(f: ListingFilters, p: Property) {
    !Exceeds(GetPriceValue(p.price), f.maxPrice)
  }

  predicate LocationAllowed(f: ListingFilters, p: Property) {
    f.location == "" || ContainsIgnoringCase(p.location, f.location)
  }

  /** The predicate passed to `filter`, in source order: type, then price, then location. */
  predicate Matches(f: ListingFilters, p: Property) {
    TypeAllowed(f, p) && PriceAllowed(f, p) && LocationAllowed(f, p)
  }

  /** `filteredProperties`: the catalogue entries meeting all three criteria, in catalogue
      order (no sort is applied). */
  function VisibleProperties(all: seq<Property>, f: ListingFilters): (r: seq<Property>)
    ensures SubsequenceOf(r, all)
    ensures forall p :: p in r ==> f.propertyType == "All" || TypeName(p.kind) == f.propertyType
    ensures forall p :: p in r ==> GetPriceValue(p.price).NaN? || GetPriceValue(p.price).value <= f.maxPrice as real
    ensures forall p :: p in r ==> f.location == "" || Contains(Lower(p.location), Lower(f.location))
    ensures forall p :: p in all && Matches(f, p) ==> p in r
    ensures forall p :: multiset(r)[p] == if Matches(f, p) then multiset(all)[p] else 0
  {
    var keep := (p: Property) => Matches(f, p);
    FilterIsSubsequence(all, keep);
    assert forall p :: multiset(Filter(all, keep))[p] == if Matches(f, p) then multiset(all)[p] else 0 by {
      forall p ensures multiset(Filter(all, keep))[p] == if Matches(f, p) then multiset(all)[p] else 0 {
        FilterCount(all, keep, p);
      }
    }
    Filter(all, keep)
  }

  /** With the default settings only the price cap of 200 lakhs applies. */
  lemma DefaultFiltersCapPriceOnly(all: seq<Property>)
    ensures VisibleProperties(all, DefaultFilters)
         == Filter(all, (p: Property) => !Exceeds(GetPriceValue(p.price), 200))
  {
    FilterCongruent(all, (p: Property) => Matches(DefaultFilters, p),
                         (p: Property) => !Exceeds(GetPriceValue(p.price), 200));
  }

  lemma DecimalCrorePrice()
    ensures GetPriceValue("₹ 1.2 Cr") == Finite(120.0)
  {
    var s := "₹ 1.2 Cr";
    assert Contains(s, "Cr") by {
      ContainsInSuffix("₹ 1.2", " Cr", "Cr");
      assert s == "₹ 1.2" + " Cr";
    }
    assert CleanPrice(s) == "1.2";
    assert LeadingDigits("1.2") == "1";
    assert LeadingDigits("2") == "2";
    assert DigitsValue("1") == 1 && DigitsValue("2") == 2 && Pow10(1) == 10;
    assert ParseCleanedDecimal("1.2") == Finite(1.2);
  }

  /** A price string written "₹ n L" for a whole `n` is worth `n`. */
  lemma LakhLiteral(n: nat, s: string)
    requires s == "₹ " + NatToString(n) + " L"
    ensures GetPriceValue(s) == Finite(n as real)
  {
    LakhPrice(n);
  }

  /** Every seed price is at most 200 lakhs. */
  lemma SeedPricesAllowed(p: Property)
    requires p in AllProperties
    ensures PriceAllowed(DefaultFilters, p)
  {
    if p.price == "₹ 1.2 Cr" {
      DecimalCrorePrice();
    } else if p.price == "₹ 75 L" {
      LakhLiteral(75, p.price);
    } else if p.price == "₹ 45 L" {
      LakhLiteral(45, p.price);
    } else if p.price == "₹ 25 L" {
      LakhLiteral(25, p.price);
    } else if p.price == "₹ 15 L" {
      LakhLiteral(15, p.price);
    } else {
      LakhLiteral(9, p.price);
    }
  }

  /** Every seed property is listed when the filters are at their defaults. */
  lemma DefaultListsWholeCatalogue()
    ensures VisibleProperties(AllProperties, DefaultFilters) == AllProperties
  {
    forall p | p in AllProperties ensures Matches(DefaultFilters, p) {
      SeedPricesAllowed(p);
    }
    FilterKeepsAll(AllProperties, (p: Property) => Matches(DefaultFilters, p));
  }

  /** A string with neither unit letter is worth 0, so it is never priced out. */
  lemma UnitlessPriceIsZero(s: string)
    requires 'C' !in s && 'L' !in s
    ensures GetPriceValue(s) == Finite(0.0)
  {
    NotContainsMissingChar(s, "Cr", 0);
    NotContainsMissingChar(s, "L", 0);
  }

  /** A unit without any digit reads as NaN, which no price cap excludes. */
  lemma DigitlessPriceIsNaN(s: string, maxPrice: int)
    requires Contains(s, "L") || Contains(s, "Cr")
    requires forall i :: 0 <= i < |s| ==> !KeptInPrice(s[i])
    ensures GetPriceValue(s) == NaN && !Exceeds(GetPriceValue(s), maxPrice)
  {
    CleanPriceDropsOthers(s);
  }

  /** "Price on Request" is worth 0. */
  lemma PriceOnRequestIsZero()
    ensures GetPriceValue("Price on Request") == Finite(0.0)
  {
    UnitlessPriceIsZero("Price on Request");
  }

  /** With "Cr" present the cleaned digits are read as crores, whatever else the string holds. */
  lemma CroreDigits(s: string, n: nat)
    requires Contains(s, "Cr") && CleanPrice(s) == NatToString(n)
    ensures GetPriceValue(s) == Finite(100.0 * n as real)
  {
    ParseOfRenderedNat(n);
  }

  /** Two runs of digits separated by other text are stripped down to the two runs, joined. */
  lemma CleanOfTwoRuns(p: string, x: string, m: string, y: string, q: string)
    requires forall i :: 0 <= i < |p| ==> !KeptInPrice(p[i])
    requires forall i :: 0 <= i < |m| ==> !KeptInPrice(m[i])
    requires forall i :: 0 <= i < |q| ==> !KeptInPrice(q[i])
    requires forall i :: 0 <= i < |x| ==> KeptInPrice(x[i])
    requires forall i :: 0 <= i < |y| ==> KeptInPrice(y[i])
    ensures CleanPrice(p + x + m + y + q) == x + y
  {
    assert CleanPrice(p + x + m) == x by {
      CleanPriceDropsOthers(p);
      CleanPriceDropsOthers(m);
      CleanPriceKeepsKept(x);
      CleanPriceAround(p, x, m);
    }
    assert CleanPrice(y + q) == y by {
      CleanPriceKeepsKept(y);
      CleanPriceDropsOthers(q);
      CleanPriceConcat(y, q);
    }
    assert p + x + m + y + q == (p + x + m) + (y + q);
    CleanPriceConcat(p + x + m, y + q);
  }

  lemma MixedCleaned()
    ensures CleanPrice("₹ 1 Cr 50 L") == NatToString(150)
  {
    CleanOfTwoRuns("₹ ", "1", " Cr ", "50", " L");
    assert "₹ " + "1" + " Cr " + "50" + " L" == "₹ 1 Cr 50 L";
    assert NatToString(150) == "1" + "50";
  }

  lemma MixedHasCrore()
    ensures Contains("₹ 1 Cr 50 L", "Cr")
  {
    ContainsInSuffix("₹ 1", " Cr 50 L", "Cr");
    assert "₹ 1 Cr 50 L" == "₹ 1" + " Cr 50 L";
  }

  /** Both units in one string: "Cr" wins, and all digits are read together. */
  lemma MixedUnitsUseCrore()
    ensures GetPriceValue("₹ 1 Cr 50 L") == Finite(15000.0)
  {
    MixedCleaned();
    MixedHasCrore();
    CroreDigits("₹ 1 Cr 50 L", 150);
  }
}

/** The static MCC+MNC to carrier-brand table.

    The source matches the whole six-character key against 200 string
    literals. Here a six-digit key is read as its MCC and MNC numbers and the
    entries are grouped by MCC; `KeyCodesInjective` shows that two six-digit
    keys with the same numbers are the same string, so this selects exactly
    the entry the source selects, and any key that is not six digits matches
    nothing, as in the source. */
module Carriers {
  import opened Wrappers

  predicate IsDigit(c: char) { '0' <= c <= '9' }

  /** A six-digit MCC+MNC pair. */
  predicate IsMccMnc(s: string) {
    |s| == 6 && forall i :: 0 <= i < |s| ==> IsDigit(s[i])
  }

  function DigitValue(c: char): int
    requires IsDigit(c)
  {
    c as int - '0' as int
  }

  /** The number spelt by three digits. */
  function Code3(s: string): int
    requires |s| == 3 && IsDigit(s[0]) && IsDigit(s[1]) && IsDigit(s[2])
  {
    100 * DigitValue(s[0]) + 10 * DigitValue(s[1]) + DigitValue(s[2])
  }

  function Mcc(key: string): int
    requires IsMccMnc(key)
  {
    Code3(key[..3])
  }

  function Mnc(key: string): int
    requires IsMccMnc(key)
  {
    Code3(key[3..])
  }

  /** Three digits are determined by the number they spell. */
  lemma Code3Injective(x: string, y: string)
    requires |x| == 3 && IsDigit(x[0]) && IsDigit(x[1]) && IsDigit(x[2])
    requires |y| == 3 && IsDigit(y[0]) && IsDigit(y[1]) && IsDigit(y[2])
    requires Code3(x) == Code3(y)
    ensures x == y
  {
    var x0, x1, x2 := DigitValue(x[0]), DigitValue(x[1]), DigitValue(x[2]);
    var y0, y1, y2 := DigitValue(y[0]), DigitValue(y[1]), DigitValue(y[2]);
    assert x0 == y0;
    assert x1 == y1;
    assert x[0] == y[0] && x[1] == y[1] && x[2] == y[2];
  }

  /** Two six-digit keys with equal MCC and MNC numbers are the same string,
      so looking entries up by number is still an exact string match. */
  lemma KeyCodesInjective(a: string, b: string)
    requires IsMccMnc(a) && IsMccMnc(b)
    requires Mcc(a) == Mcc(b) && Mnc(a) == Mnc(b)
    ensures a == b
  {
    Code3Injective(a[..3], b[..3]);
    Code3Injective(a[3..], b[3..]);
    assert a == a[..3] + a[3..];
    assert b == b[..3] + b[3..];
  }

  /** Entries whose MCC is 302, keyed by MNC. */
  function Mcc302(mnc: int): (brand: Option<string>)
    ensures brand.Some? ==> 0 <= mnc <= 999 && brand.value != ""
  {
    match mnc
    case 130 => Some("Xplornet")
    case 131 => Some("Xplornet")
    case 220 => Some("Telus Mobility")
    case 270 => Some("EastLink")
    case 290 => Some("Airtel Wireless")
    case 300 => Some("ECOTEL")
    case 310 => Some("ECOTEL")
    case 320 => Some("Rogers Wireless")
    case 340 => Some("Execulink")
    case 370 => Some("Fido")
    case 380 => Some("Keewaytinook Mobile")
    case 420 => Some("ABC")
    case 480 => Some("Qiniq")
    case 490 => Some("Freedom Mobile")
    case 500 => Some("Videotron")
    case 510 => Some("Videotron")
    case 530 => Some("Keewaytinook Mobile")
    case 590 => Some("Quadro Mobility")
    case 610 => Some("Bell Mobility")
    case 620 => Some("ICE Wireless")
    case 650 => Some("TBaytel")
    case 660 => Some("MTS")
    case 680 => Some("SaskTel")
    case 690 => Some("Bell")
    case 710 => Some("Globalstar")
    case 720 => Some("Rogers Wireless")
    case 760 => Some("Public Mobile")
    case 770 => Some("TNW Wireless")
    case 780 => Some("SaskTel")
    case 880 => Some("Bell / Telus / SaskTel")
    case 940 => Some("Wightman Mobility")
    case _ => None
  }

  /** Entries whose MCC is 310, keyed by MNC. */
  function Mcc310(mnc: int): (brand: Option<string>)
    ensures brand.Some? ==> 0 <= mnc <= 999 && brand.value != ""
  {
    match mnc
    case 004 => Some("Verizon")
    case 005 => Some("Verizon")
    case 006 => Some("Verizon")
    case 012 => Some("Verizon")
    case 020 => Some("Union Wireless")
    case 030 => Some("AT&T")
    case 032 => Some("IT&E Wireless")
    case 034 => Some("Airpeak")
    case 050 => Some("GCI")
    case 053 => Some("Virgin Mobile")
    case 054 => Some("Alltel US")
    case 066 => Some("U.S. Cellular")
    case 070 => Some("AT&T")
    case 080 => Some("AT&T")
    case 090 => Some("AT&T")
    case 100 => Some("Plateau Wireless")
    case 110 => Some("IT&E Wireless")
    case 120 => Some("T-Mobile")
    case 130 => Some("Carolina West Wireless")
    case 140 => Some("GTA Wireless")
    case 150 => Some("AT&T")
    case 160 => Some("T-Mobile")
    case 170 => Some("AT&T")
    case 180 => Some("West Central")
    case 190 => Some("GCI")
    case 260 => Some("T-Mobile")
    case 320 => Some("Cellular One")
    case 340 => Some("Limitless Mobile")
    case 360 => Some("Pioneer Cellular")
    case 370 => Some("Docomo")
    case 390 => Some("Cellular One of East Texas")
    case 400 => Some("IT&E Wireless")
    case 410 => Some("AT&T")
    case 430 => Some("GCI")
    case 440 => Some("Numerex")
    case 450 => Some("Viaero")
    case 460 => Some("Conecto")
    case 480 => Some("IT&E Wireless")
    case 490 => Some("T-Mobile")
    case 500 => Some("Alltel")
    case 540 => Some("Phoenix")
    case 570 => Some("Broadpoint")
    case 580 => Some("Inland Cellular")
    case 600 => Some("Cellcom")
    case 640 => Some("Numerex")
    case 650 => Some("Jasper")
    case 680 => Some("AT&T")
    case 690 => Some("Limitless Mobile")
    case 710 => Some("ASTAC")
    case 740 => Some("Viaero")
    case 750 => Some("Appalachian Wireless")
    case 840 => Some("telna Mobile")
    case 850 => Some("Aeris")
    case 860 => Some("Five Star Wireless")
    case 880 => Some("DTC Wireless")
    case 900 => Some("Mid-Rivers Wireless")
    case 920 => Some("James Valley Wireless")
    case 930 => Some("Copper Valley Wireless")
    case 950 => Some("AT&T")
    case 960 => Some("STRATA")
    case 970 => Some("Globalstar")
    case 990 => Some("Evolve Broadband")
    case _ => None
  }

  /** Entries whose MCC is 311, keyed by MNC. */
  function Mcc311(mnc: int): (brand: Option<string>)
    ensures brand.Some? ==> 0 <= mnc <= 999 && brand.value != ""
  {
    match mnc
    case 010 => Some("Chariton Valley")
    case 012 => Some("Verizon")
    case 020 => Some("Chariton Valley")
    case 030 => Some("Indigo Wireless")
    case 040 => Some("Choice Wireless")
    case 050 => Some("Thumb Cellular")
    case 060 => Some("Space Data")
    case 070 => Some("AT&T")
    case 080 => Some("Pine Cellular")
    case 090 => Some("AT&T")
    case 100 => Some("Nex-Tech Wireless")
    case 120 => Some("IT&E Wireless")
    case 140 => Some("Bravado Wireless")
    case 150 => Some("Wilkes Cellular")
    case 170 => Some("Tampnet")
    case 210 => Some("Telnyx")
    case 220 => Some("U.S. Cellular")
    case 230 => Some("C Spire")
    case 240 => Some("Cordova Wireless")
    case 250 => Some("IT&E Wireless")
    case 320 => Some("Choice Wireless")
    case 330 => Some("Bug Tussel Wireless")
    case 340 => Some("Illinois Valley Cellular")
    case 350 => Some("Nemont")
    case 370 => Some("GCI Wireless")
    case 380 => Some("New Dimension Wireless")
    case 410 => Some("Chat Mobility")
    case 420 => Some("NorthwestCell")
    case 440 => Some("Bluegrass Cellular")
    case 450 => Some("PTCI")
    case 470 => Some("Viya")
    case 480 => Some("Verizon")
    case 490 => Some("T-Mobile")
    case 530 => Some("NewCore")
    case 550 => Some("Choice Wireless")
    case 560 => Some("OTZ Cellular")
    case 580 => Some("U.S. Cellular")
    case 600 => Some("Limitless Mobile")
    case 640 => Some("Rock Wireless")
    case 650 => Some("United Wireless")
    case 660 => Some("Metro")
    case 670 => Some("Pine Belt Wireless")
    case 690 => Some("TeleBEEPER")
    case 740 => Some("Telalaska Cellular")
    case 780 => Some("ASTCA")
    case 800 => Some("Bluegrass Cellular")
    case 810 => Some("Bluegrass Cellular")
    case 830 => Some("Thumb Cellular")
    case 840 => Some("Cellcom")
    case 850 => Some("Cellcom")
    case 860 => Some("STRATA")
    case 870 => Some("Boost Mobile")
    case 882 => Some("T-Mobile")
    case 900 => Some("GigSky Mobile")
    case 950 => Some("ETC")
    case 970 => Some("Big River Broadband")
    case 990 => Some("VTel Wireless")
    case _ => None
  }

  /** Entries whose MCC is 312, keyed by MNC. */
  function Mcc312(mnc: int): (brand: Option<string>)
    ensures brand.Some? ==> 0 <= mnc <= 999 && brand.value != ""
  {
    match mnc
    case 030 => Some("Bravado Wireless")
    case 040 => Some("Custer Telephone Co-op")
    case 080 => Some("SyncSouth")
    case 120 => Some("Appalachian Wireless")
    case 130 => Some("Appalachian Wireless")
    case 150 => Some("NorthwestCell")
    case 160 => Some("Chat Mobility")
    case 170 => Some("Chat Mobility")
    case 180 => Some("Limitless Mobile")
    case 210 => Some("Aspenta")
    case 220 => Some("Chariton Valley")
    case 260 => Some("NewCore")
    case 270 => Some("Pioneer Cellular")
    case 280 => Some("Pioneer Cellular")
    case 300 => Some("telna Mobile")
    case 310 => Some("Clear Stream Communications")
    case 320 => Some("RTC Communications")
    case 330 => Some("Nemont")
    case 350 => Some("Triangle Communications")
    case 370 => Some("Choice Wireless")
    case 380 => Some("Copper Valley Wireless")
    case 390 => Some("FTC Wireless")
    case 400 => Some("Mid-Rivers Wireless")
    case 420 => Some("Nex-Tech Wireless")
    case 430 => Some("Silver Star Communications")
    case 470 => Some("Carolina West Wireless")
    case 530 => Some("T-Mobile")
    case 590 => Some("NMU")
    case 620 => Some("GlobeTouch")
    case 670 => Some("FirstNet")
    case 720 => Some("Southern LINC")
    case 730 => Some("Triangle Communications")
    case 780 => Some("Redzone Wireless")
    case 810 => Some("BBCP")
    case 870 => Some("GigSky Mobile")
    case 900 => Some("ClearTalk")
    case _ => None
  }

  /** Entries whose MCC is 313, keyed by MNC. */
  function Mcc313(mnc: int): (brand: Option<string>)
    ensures brand.Some? ==> 0 <= mnc <= 999 && brand.value != ""
  {
    match mnc
    case 020 => Some("CTC Wireless")
    case 040 => Some("NNTC Wireless")
    case 060 => Some("Country Wireless")
    case 080 => Some("Speedwavz")
    case 090 => Some("Vivint Wireless")
    case 100 => Some("FirstNet")
    case 260 => Some("Expeto Wireless")
    case 340 => Some("Dish")
    case 460 => Some("Mobi")
    case 510 => Some("Claro")
    case 560 => Some("Transit Wireless")
    case 860 => Some("Nextlink")
    case 890 => Some("TCOE")
    case 930 => Some("Rock Wireless")
    case _ => None
  }

  /** The table itself: the brand of a listed key, `None` for the source's
      `else` branch. Every listed key is six digits and every brand is
      non-empty. */
  function BrandOf(mccmnc: string): (brand: Option<string>)
    ensures brand.Some? ==> IsMccMnc(mccmnc) && brand.value != ""
  {
    if !IsMccMnc(mccmnc) then None
    else
      match Mcc(mccmnc)
      case 302 => Mcc302(Mnc(mccmnc))
      case 310 => Mcc310(Mnc(mccmnc))
      case 311 => Mcc311(Mnc(mccmnc))
      case 312 => Mcc312(Mnc(mccmnc))
      case 313 => Mcc313(Mnc(mccmnc))
      case _ => None
  }

  /** carrierNameFromMCCMNC: the listed brand, or "" for any other key; since
      no listed brand is empty, "" means exactly that the key is unlisted. */
  function CarrierNameFromMccMnc(mccmnc: string): (name: string)
    ensures BrandOf(mccmnc).Some? ==> name == BrandOf(mccmnc).value
    ensures name == "" <==> BrandOf(mccmnc).None?
  {
    BrandOf(mccmnc).GetOr("")
  }

  /** Only six-digit strings are listed, so any other string, the empty
      operator in particular, resolves to no brand. */
  lemma UnlistedShapeHasNoBrand(mccmnc: string)
    requires !IsMccMnc(mccmnc)
    ensures CarrierNameFromMccMnc(mccmnc) == ""
  {
  }

  /** Sample entries of the table, one lemma per MCC group. */
  lemma ListedBrands302()
    ensures CarrierNameFromMccMnc("302610") == "Bell Mobility"
    ensures CarrierNameFromMccMnc("302220") == "Telus Mobility"
  {
  }

  lemma ListedBrands310()
    ensures CarrierNameFromMccMnc("310260") == "T-Mobile"
    ensures CarrierNameFromMccMnc("310004") == "Verizon"
  {
  }

  lemma ListedBrands311()
    ensures CarrierNameFromMccMnc("311480") == "Verizon"
    ensures CarrierNameFromMccMnc("311012") == "Verizon"
  {
  }

  lemma ListedBrands312And313()
    ensures CarrierNameFromMccMnc("312670") == "FirstNet"
    ensures CarrierNameFromMccMnc("313340") == "Dish"
  {
  }

  /** Matching is exact: neighbours and extensions of a listed key miss. */
  lemma ExactMatchOnly()
    ensures CarrierNameFromMccMnc("302611") == ""
    ensures CarrierNameFromMccMnc("30261") == ""
    ensures CarrierNameFromMccMnc("3026100") == ""
    ensures CarrierNameFromMccMnc("") == ""
  {
  }

  /** Distinct keys may share a brand: the table is not injective. */
  lemma SharedBrand()
    ensures CarrierNameFromMccMnc("302500") == "Videotron"
    ensures CarrierNameFromMccMnc("302510") == "Videotron"
  {
  }
}

/** Asset types and their market characteristics: trading session,
    24/7 flag and whether resampling aligns bars to the session open. */
module AssetTypes {
  import opened Wrappers
  import opened Decimal

  datatype AssetType = UsEquity | Crypto | Forex | Commodity | InternationalEquity | Unknown
  {
    function Value(): string
    {
      match this
      case UsEquity => "us_equity"
      case Crypto => "crypto"
      case Forex => "forex"
      case Commodity => "commodity"
      case InternationalEquity => "international_equity"
      case Unknown => "unknown"
    }
  }

  const AllAssetTypes: seq<AssetType> := [UsEquity, Crypto, Forex, Commodity, InternationalEquity, Unknown]

  datatype MarketSession = MarketSession(
    name: string,
    openUtcHour: nat,
    openUtcMinute: nat,
    closeUtcHour: nat,
    closeUtcMinute: nat,
    timezone: string)
  {
    /** "HH:MM" of the open, zero-padded. */
    function OpenUtcTime(): string
    {
      Pad2(openUtcHour) + ":" + Pad2(openUtcMinute)
    }

    /** "HH:MM" of the close, zero-padded. */
    function CloseUtcTime(): string
    {
      Pad2(closeUtcHour) + ":" + Pad2(closeUtcMinute)
    }

    /** The pandas offset string "{hour}h{minute:02d}min"; the hour is not padded. */
    function ResamplingOffset(): string
    {
      NatToString(openUtcHour) + "h" + Pad2(openUtcMinute) + "min"
    }

    /** Minutes after UTC midnight at which the session opens. */
    function OpenMinuteOfDay(): nat
    {
      openUtcHour * 60 + openUtcMinute
    }
  }

  /** Reads an "HH:MM" text back into hour and minute. */
  function ParseClock(s: string): (r: Option<(nat, nat)>)
    ensures r.Some? ==> |s| == 5
  {
    if |s| != 5 || s[2] != ':' then None
    else
      match (ParseNat(s[..2]), ParseNat(s[3..]))
      case (Some(h), Some(m)) => Some((h, m))
      case _ => None
  }

  /** The first position of `x` in `s`, if any. */
  function IndexOf(s: string, x: char): (r: Option<nat>)
    ensures r.Some? ==> r.value < |s| && s[r.value] == x && x !in s[..r.value]
    ensures r.None? ==> x !in s
  {
    if |s| == 0 then None
    else if s[0] == x then Some(0)
    else
      match IndexOf(s[1..], x)
      case None => None
      case Some(k) => assert s[..k + 1] == [s[0]] + s[1..][..k]; Some(k + 1)
  }

  /** How pandas reads an offset of the form "{digits}h{digits}min": as a
      number of minutes. */
  function ParseOffset(s: string): (r: Option<nat>)
  {
    if |s| < 3 || s[|s| - 3..] != "min" then None
    else
      var body := s[..|s| - 3];
      match IndexOf(body, 'h')
      case None => None
      case Some(k) =>
        match (ParseNat(body[..k]), ParseNat(body[k + 1..]))
        case (Some(h), Some(m)) => Some(h * 60 + m)
        case _ => None
  }

  /** The offset string of a session means its open, in minutes after midnight. */
  lemma ResamplingOffsetMeaning(s: MarketSession)
    ensures ParseOffset(s.ResamplingOffset()) == Some(s.OpenMinuteOfDay())
  {
    var hs := NatToString(s.openUtcHour);
    var ms := Pad2(s.openUtcMinute);
    var text := s.ResamplingOffset();
    var body := hs + "h" + ms;
    assert text == body + "min";
    assert text[|text| - 3..] == "min";
    assert text[..|text| - 3] == body;
    assert 'h' !in hs by {
      assert forall i :: 0 <= i < |hs| ==> IsDigit(hs[i]);
    }
    IndexOfAfterPrefix(hs, ms, 'h');
    assert body[..|hs|] == hs;
    assert body[|hs| + 1..] == ms;
    ParseNatToString(s.openUtcHour);
    ParsePad2(s.openUtcMinute);
  }

  lemma {:induction false} IndexOfAfterPrefix(a: string, b: string, x: char)
    requires x !in a
    ensures IndexOf(a + [x] + b, x) == Some(|a|)
  {
    if |a| > 0 {
      assert (a + [x] + b)[1..] == a[1..] + [x] + b;
      IndexOfAfterPrefix(a[1..], b, x);
    }
  }

  /** Open and close clock texts read back as the session's hours and minutes. */
  lemma ClockTextsRoundTrip(s: MarketSession)
    requires s.openUtcHour < 100 && s.openUtcMinute < 100 && s.closeUtcHour < 100 && s.closeUtcMinute < 100
    ensures ParseClock(s.OpenUtcTime()) == Some((s.openUtcHour, s.openUtcMinute))
    ensures ParseClock(s.CloseUtcTime()) == Some((s.closeUtcHour, s.closeUtcMinute))
  {
    ParsePad2(s.openUtcHour);
    ParsePad2(s.openUtcMinute);
    ParsePad2(s.closeUtcHour);
    ParsePad2(s.closeUtcMinute);
    var o := s.OpenUtcTime();
    assert o[..2] == Pad2(s.openUtcHour) && o[3..] == Pad2(s.openUtcMinute);
    var c := s.CloseUtcTime();
    assert c[..2] == Pad2(s.closeUtcHour) && c[3..] == Pad2(s.closeUtcMinute);
  }

  datatype AssetTypeConfig = AssetTypeConfig(
    assetType: AssetType,
    name: string,
    description: string,
    marketSession: Option<MarketSession>,
    is24_7: bool,
    useSessionAlignment: bool)
  {
    /** The session's offset string when aligning to a known session, else None. */
    function ResamplingOffset(): (r: Option<string>)
      ensures r.Some? <==> useSessionAlignment && marketSession.Some?
      ensures r.Some? ==> r.value == marketSession.value.ResamplingOffset()
    {
      if useSessionAlignment && marketSession.Some? then Some(marketSession.value.ResamplingOffset()) else None
    }
  }

  const UsEquitySession: MarketSession :=
    MarketSession("US Equity Regular Hours", 13, 30, 20, 0, "America/New_York")

  const LondonForexSession: MarketSession :=
    MarketSession("London Forex Session", 8, 0, 17, 0, "Europe/London")

  /** `get_asset_config`: the table entry of an asset type, defined for every
      member of the enumeration. */
  function AssetConfig(t: AssetType): (c: AssetTypeConfig)
    ensures c.assetType == t
    ensures c.useSessionAlignment ==> c.marketSession.Some?
  {
    match t
    case UsEquity =>
      AssetTypeConfig(UsEquity, "US Equity", "US stock market securities (NYSE, NASDAQ)",
                      Some(UsEquitySession), false, true)
    case Crypto =>
      AssetTypeConfig(Crypto, "Cryptocurrency", "Digital currencies trading 24/7", None, true, false)
    case Forex =>
      AssetTypeConfig(Forex, "Foreign Exchange", "Currency pairs trading in global sessions",
                      Some(LondonForexSession), true, true)
    case Commodity =>
      AssetTypeConfig(Commodity, "Commodity", "Physical goods and futures contracts", None, false, false)
    case InternationalEquity =>
      AssetTypeConfig(InternationalEquity, "International Equity", "Non-US stock market securities",
                      None, false, false)
    case Unknown =>
      AssetTypeConfig(Unknown, "Unknown Asset", "Asset type could not be determined", None, false, false)
  }

  /** `get_resampling_offset`: the configured session offset of an asset type. */
  function GetResamplingOffset(t: AssetType): (r: Option<string>)
    ensures r.Some? <==> t == UsEquity || t == Forex
  {
    AssetConfig(t).ResamplingOffset()
  }

  /** The same offset as a number of minutes after UTC midnight. */
  function SessionOffsetMinutes(t: AssetType): (r: Option<nat>)
    ensures r.Some? <==> GetResamplingOffset(t).Some?
    ensures r.Some? ==> ParseOffset(GetResamplingOffset(t).value) == r
  {
    var c := AssetConfig(t);
    if c.useSessionAlignment && c.marketSession.Some? then
      ResamplingOffsetMeaning(c.marketSession.value);
      Some(c.marketSession.value.OpenMinuteOfDay())
    else None
  }

  /** `should_use_session_alignment`. */
  function ShouldUseSessionAlignment(t: AssetType): (b: bool)
    ensures b <==> GetResamplingOffset(t).Some?
  {
    AssetConfig(t).useSessionAlignment
  }

  /** `is_24_7_market`: crypto and forex only. */
  function Is24_7Market(t: AssetType): (b: bool)
    ensures b <==> t == Crypto || t == Forex
  {
    AssetConfig(t).is24_7
  }

  /** US equities align to 13:30 UTC, forex to 08:00 UTC. */
  lemma SessionOffsetsTable()
    ensures SessionOffsetMinutes(UsEquity) == Some(810)
    ensures SessionOffsetMinutes(Forex) == Some(480)
    ensures forall t :: t != UsEquity && t != Forex ==> SessionOffsetMinutes(t).None?
  {
  }

  /** The offset strings are "13h30min" and "8h00min". */
  lemma ResamplingOffsetStrings()
    ensures GetResamplingOffset(UsEquity) == Some("13h30min")
    ensures GetResamplingOffset(Forex) == Some("8h00min")
  {
    assert NatToString(1) == "1" && DigitChar(3) == '3';
    assert NatToString(13) == "13";
    assert Pad2(30) == "30";
    assert NatToString(8) == "8";
    assert Pad2(0) == "00";
    assert UsEquitySession.ResamplingOffset() == "13" + "h" + "30" + "min";
    assert LondonForexSession.ResamplingOffset() == "8" + "h" + "00" + "min";
    assert "13" + "h" + "30" + "min" == "13h30min";
    assert "8" + "h" + "00" + "min" == "8h00min";
    assert AssetConfig(UsEquity).ResamplingOffset() == Some(UsEquitySession.ResamplingOffset());
    assert AssetConfig(Forex).ResamplingOffset() == Some(LondonForexSession.ResamplingOffset());
  }

  /** Session clock texts of the two configured sessions. */
  lemma SessionClockTexts()
    ensures UsEquitySession.OpenUtcTime() == "13:30" && UsEquitySession.CloseUtcTime() == "20:00"
    ensures LondonForexSession.OpenUtcTime() == "08:00" && LondonForexSession.CloseUtcTime() == "17:00"
  {
    assert Pad2(13) == "13" && Pad2(30) == "30" && Pad2(20) == "20" && Pad2(0) == "00";
    assert Pad2(8) == "08" && Pad2(17) == "17";
  }
}

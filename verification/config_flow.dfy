/**
 * The configuration flow of custom_components/a_tfa_me_1/config_flow.py: the recogniser of
 * accepted station hosts (a dotted-quad IPv4 address or a `tfa-me-XXX-XXX-XXX.local` mDNS
 * name), the validation of the first form, and the dispatch of the options menu.
 */
module ConfigFlow {
  import opened Wrappers
  import opened Text
  import opened Values

  // ---- Host recognisers ----

  /**
   * One octet of the IPv4 pattern: the alternatives `25[0-5]`, `2[0-4][0-9]`, `1[0-9][0-9]`
   * and `[1-9]?[0-9]`.
   */
  predicate IsOctet(s: string) {
    || (|s| == 3 && s[0] == '2' && s[1] == '5' && '0' <= s[2] <= '5')
    || (|s| == 3 && s[0] == '2' && '0' <= s[1] <= '4' && IsDigit(s[2]))
    || (|s| == 3 && s[0] == '1' && IsDigit(s[1]) && IsDigit(s[2]))
    || (|s| == 2 && '1' <= s[0] <= '9' && IsDigit(s[1]))
    || (|s| == 1 && IsDigit(s[0]))
  }

  /** The octets are exactly the decimal numbers 0..255 written without a leading zero. */
  lemma OctetMeaning(s: string)
    ensures IsOctet(s) <==> |s| >= 1 && AllDigits(s) && (|s| == 1 || s[0] != '0') && DecimalValue(s) <= 255
  {
    if |s| >= 1 && AllDigits(s) && (|s| == 1 || s[0] != '0') {
      if |s| >= 4 {
        DecimalValueAtLeast(s);
        assert Pow10(3) == 1000;
        assert Pow10(|s| - 1) >= Pow10(3) by { Pow10Monotone(3, |s| - 1); }
      } else if |s| == 3 {
        assert s[..2][..1] == s[..1] && s[..1][..0] == [];
        assert DecimalValue(s[..1]) == DigitValue(s[0]);
        assert DecimalValue(s[..2]) == DigitValue(s[0]) * 10 + DigitValue(s[1]);
        assert DecimalValue(s) == DigitValue(s[0]) * 100 + DigitValue(s[1]) * 10 + DigitValue(s[2]);
      } else if |s| == 2 {
        assert DecimalValue(s) == DigitValue(s[0]) * 10 + DigitValue(s[1]);
      }
    }
  }

  lemma {:induction false} Pow10Monotone(i: nat, j: nat)
    requires i <= j
    ensures Pow10(i) <= Pow10(j)
    decreases j
  {
    if i < j {
      Pow10Monotone(i, j - 1);
    }
  }

  /** The IPv4 pattern without its end anchor: four octets separated by dots. */
  predicate Ipv4Core(h: string) {
    var parts := Split(h, '.');
    |parts| == 4 && IsOctet(parts[0]) && IsOctet(parts[1]) && IsOctet(parts[2]) && IsOctet(parts[3])
  }

  /** The mDNS pattern without its end anchor. */
  predicate MdnsCore(h: string) {
    && |h| == 24
    && h[..7] == "tfa-me-"
    && AllHexDigits(h[7..10]) && h[10] == '-'
    && AllHexDigits(h[11..14]) && h[14] == '-'
    && AllHexDigits(h[15..18])
    && h[18..] == ".local"
  }

  /**
   * `re.match` of a pattern ending in `$`: the pattern matches the whole text, or the text
   * minus one final newline.
   */
  predicate AnchoredMatch(h: string, core: string -> bool) {
    core(h) || (|h| >= 1 && h[|h| - 1] == '\n' && core(h[..|h| - 1]))
  }

  predicate IsValidHost(h: string) {
    AnchoredMatch(h, Ipv4Core) || AnchoredMatch(h, MdnsCore)
  }

  /** `is_valid_ip_or_mdns`: `ip_address` must be present, a string, and an accepted host. */
  function IsValidIpOrMdns(toVerify: map<string, Scalar>): (r: bool)
    ensures r ==> "ip_address" in toVerify && toVerify["ip_address"].Str?
  {
    "ip_address" in toVerify && toVerify["ip_address"].Str? && IsValidHost(toVerify["ip_address"].s)
  }

  /** The dotted-quad text of four octet values. */
  function Ipv4Text(a: nat, b: nat, c: nat, d: nat): string {
    Join([DecimalString(a), DecimalString(b), DecimalString(c), DecimalString(d)], '.')
  }

  /** Every address with four values 0..255 written in decimal is accepted. */
  lemma Ipv4TextAccepted(a: nat, b: nat, c: nat, d: nat)
    requires a <= 255 && b <= 255 && c <= 255 && d <= 255
    ensures Ipv4Core(Ipv4Text(a, b, c, d))
  {
    var parts := [DecimalString(a), DecimalString(b), DecimalString(c), DecimalString(d)];
    SplitJoin(parts, '.');
    DecimalOctet(a);
    DecimalOctet(b);
    DecimalOctet(c);
    DecimalOctet(d);
  }

  lemma DecimalOctet(n: nat)
    requires n <= 255
    ensures IsOctet(DecimalString(n))
  {
    var s := DecimalString(n);
    DecimalRoundTrip(n);
    if |s| > 1 && s[0] == '0' {
      // DecimalString never writes a leading zero
      DecimalStringNoLeadingZero(n);
    }
    OctetMeaning(s);
  }

  lemma {:induction false} DecimalStringNoLeadingZero(n: nat)
    ensures |DecimalString(n)| == 1 || DecimalString(n)[0] != '0'
    decreases n
  {
    if n >= 10 {
      DecimalStringNoLeadingZero(n / 10);
      assert DecimalString(n)[0] == DecimalString(n / 10)[0];
      if n / 10 < 10 {
        assert DecimalString(n / 10) == [DigitChar(n / 10)];
      }
    }
  }

  /** Every accepted dotted quad is the decimal text of four values 0..255. */
  lemma Ipv4CoreOnlyQuads(h: string)
    requires Ipv4Core(h)
    ensures exists a: nat, b: nat, c: nat, d: nat :: a <= 255 && b <= 255 && c <= 255 && d <= 255 && h == Ipv4Text(a, b, c, d)
  {
    var parts := Split(h, '.');
    JoinSplit(h, '.');
    OctetMeaning(parts[0]);
    OctetMeaning(parts[1]);
    OctetMeaning(parts[2]);
    OctetMeaning(parts[3]);
    DecimalCanonical(parts[0]);
    DecimalCanonical(parts[1]);
    DecimalCanonical(parts[2]);
    DecimalCanonical(parts[3]);
    var a, b, c, d := DecimalValue(parts[0]), DecimalValue(parts[1]), DecimalValue(parts[2]), DecimalValue(parts[3]);
    assert parts == [DecimalString(a), DecimalString(b), DecimalString(c), DecimalString(d)];
    assert h == Ipv4Text(a, b, c, d);
  }

  /** The mDNS name of a station with the three hex groups x, y and z. */
  function MdnsName(x: string, y: string, z: string): string {
    "tfa-me-" + x + "-" + y + "-" + z + ".local"
  }

  /** The mDNS recogniser accepts exactly the names built from three groups of three hex digits. */
  lemma MdnsCoreIffName(h: string)
    ensures MdnsCore(h) <==>
      exists x: string, y: string, z: string | |x| == 3 && |y| == 3 && |z| == 3 ::
        AllHexDigits(x) && AllHexDigits(y) && AllHexDigits(z) && h == MdnsName(x, y, z)
  {
    if MdnsCore(h) {
      var x, y, z := h[7..10], h[11..14], h[15..18];
      assert h == MdnsName(x, y, z);
    }
    if exists x: string, y: string, z: string | |x| == 3 && |y| == 3 && |z| == 3 ::
        AllHexDigits(x) && AllHexDigits(y) && AllHexDigits(z) && h == MdnsName(x, y, z) {
      var x: string, y: string, z: string :| |x| == 3 && |y| == 3 && |z| == 3 &&
        AllHexDigits(x) && AllHexDigits(y) && AllHexDigits(z) && h == MdnsName(x, y, z);
      assert h[7..10] == x && h[11..14] == y && h[15..18] == z;
    }
  }

  /** The prefix is lower-case only: an upper-case "TFA-ME-" name is rejected. */
  lemma MdnsPrefixIsCaseSensitive(x: string, y: string, z: string)
    ensures !MdnsCore("TFA-ME-" + x + "-" + y + "-" + z + ".local")
  {
    var h := "TFA-ME-" + x + "-" + y + "-" + z + ".local";
    if |h| == 24 {
      assert h[0] == 'T';
    }
  }

  /** A dotted quad ends with a digit. */
  lemma QuadEndsWithDigit(x: string)
    ensures Ipv4Core(x) ==> x != [] && IsDigit(x[|x| - 1])
  {
    if Ipv4Core(x) {
      var parts := Split(x, '.');
      JoinSplit(x, '.');
      JoinEndsWithLast(parts, '.');
      OctetMeaning(parts[3]);
      assert x[|x| - 1] == parts[3][|parts[3]| - 1];
    }
  }

  /** An mDNS name ends with the 'l' of ".local". */
  lemma MdnsEndsWithL(x: string)
    ensures MdnsCore(x) ==> x != [] && x[|x| - 1] == 'l'
  {
    if MdnsCore(x) {
      assert x[|x| - 1] == x[18..][5];
    }
  }

  /** `$` lets one trailing newline through, but never two. */
  lemma TrailingNewline(h: string)
    ensures (Ipv4Core(h) || MdnsCore(h)) ==> IsValidHost(h + "\n")
    ensures !IsValidHost(h + "\n\n")
  {
    assert (h + "\n")[..|h|] == h;
    var x1, x2 := h + "\n", h + "\n\n";
    assert x2[..|x2| - 1] == x1;
    QuadEndsWithDigit(x1);
    QuadEndsWithDigit(x2);
    MdnsEndsWithL(x1);
    MdnsEndsWithL(x2);
  }

  // ---- The first form ----

  /** The interval the first form uses: an int (a bool counts as one) or else the default 60. */
  function EffectiveInterval(userInput: map<string, Scalar>): (r: int)
    ensures "interval" in userInput && userInput["interval"].Int? ==> r == userInput["interval"].i
    ensures "interval" !in userInput || !(userInput["interval"].Int? || userInput["interval"].Bool?) ==> r == 60
  {
    if "interval" !in userInput then 60
    else match userInput["interval"]
      case Int(i) => i
      case Bool(b) => if b then 1 else 0
      case _ => 60
  }

  /** What the station returns when asked for its identifier. */
  datatype ConnectResult = Connected(identifier: string) | CannotConnect | Unexpected

  datatype FlowResult =
    | ShowForm(errors: map<string, string>)
    | CreateEntry(title: string, data: map<string, Scalar>)
    | Abort(reason: string)

  /**
   * `async_step_user`: the errors dict is filled step by step. `connect` is the outcome of
   * asking the station for its identifier and `configured` holds the unique ids of the
   * existing entries.
   */
  method StepUser(userInput: Option<map<string, Scalar>>, connect: ConnectResult, configured: set<string>)
    returns (r: FlowResult)
    ensures userInput.None? ==> r == ShowForm(map[])
    ensures userInput.Some? && EffectiveInterval(userInput.value) <= 9 ==>
      r == ShowForm(map["interval" := "invalid_interval"])
    ensures userInput.Some? && EffectiveInterval(userInput.value) > 9 && !IsValidIpOrMdns(userInput.value) ==>
      r == ShowForm(map["ip_address" := "invalid_ip_host"])
    ensures userInput.Some? && EffectiveInterval(userInput.value) > 9 && IsValidIpOrMdns(userInput.value) ==>
      match connect
      case CannotConnect => r == ShowForm(map["base" := "cannot_connect", "ip_address" := "invalid_ip_host"])
      case Unexpected => r == ShowForm(map["base" := "unknown", "ip_address" := "invalid_ip_host"])
      case Connected(id) =>
        if id in configured then r == Abort("already_configured")
        else r == CreateEntry("TFA.me Station '" + userInput.value["ip_address"].s + "'", userInput.value)
    // An entry is created only for an interval of at least 10 and an accepted host, and a
    // submitted form that comes back always names at least one error.
    ensures r.CreateEntry? ==> userInput.Some? && EffectiveInterval(userInput.value) >= 10 && IsValidIpOrMdns(userInput.value)
    ensures r.ShowForm? && userInput.Some? ==> |r.errors| >= 1
  {
    var errors: map<string, string> := map[];
    if userInput.None? {
      return ShowForm(errors);
    }
    var input := userInput.value;
    var updateInterval := 60;
    if "interval" in input && (input["interval"].Int? || input["interval"].Bool?) {
      updateInterval := if input["interval"].Int? then input["interval"].i
                        else if input["interval"].b then 1 else 0;
    }
    if updateInterval <= 9 {
      errors := errors["interval" := "invalid_interval"];
      return ShowForm(errors);
    }
    if IsValidIpOrMdns(input) {
      var title := "TFA.me Station";
      if input["ip_address"].Str? {
        title := "TFA.me Station '" + input["ip_address"].s + "'";
      }
      match connect {
        case CannotConnect =>
          errors := errors["base" := "cannot_connect"];
        case Unexpected =>
          errors := errors["base" := "unknown"];
        case Connected(identifier) =>
          if identifier in configured {
            return Abort("already_configured");
          }
          return CreateEntry(title, input);
      }
    }
    errors := errors["ip_address" := "invalid_ip_host"];
    return ShowForm(errors);
  }

  // ---- The options menu ----

  datatype OptionsStep = SetInterval | DiscoverSensors | ResetRain | UpdateData | ShowMenu

  /** The values of the options menu, in the order shown. */
  const MenuValues: seq<string> := ["none", "menu_interval", "discover_sensors", "action_rain", "udapte_data"]

  /** `async_step_init`: which step a submitted options form goes to. */
  function StepInit(userInput: Option<map<string, Scalar>>): OptionsStep {
    if userInput.None? then ShowMenu
    else
      var input := userInput.value;
      if "interval" in input then SetInterval
      else if "select_option" !in input then ShowMenu
      else
        var option := input["select_option"];
        if option == Str("menu_interval") then SetInterval
        else if option == Str("discover_sensors") then DiscoverSensors
        else if option == Str("action_rain") then ResetRain
        else if option == Str("udapte_data") then UpdateData
        else ShowMenu
  }

  /** An "interval" entry routes to the interval step whatever the selected option says. */
  lemma IntervalKeyWins(input: map<string, Scalar>, option: Scalar)
    requires "interval" in input
    ensures StepInit(Some(input)) == SetInterval
    ensures StepInit(Some(input["select_option" := option])) == SetInterval
  {
  }

  /** Every menu value except "none" leads to its own step; "none" shows the menu again. */
  lemma MenuValuesRoute()
    ensures StepInit(Some(map["select_option" := Str(MenuValues[0])])) == ShowMenu
    ensures StepInit(Some(map["select_option" := Str(MenuValues[1])])) == SetInterval
    ensures StepInit(Some(map["select_option" := Str(MenuValues[2])])) == DiscoverSensors
    ensures StepInit(Some(map["select_option" := Str(MenuValues[3])])) == ResetRain
    ensures StepInit(Some(map["select_option" := Str(MenuValues[4])])) == UpdateData
  {
  }

  /** The menu comes back exactly when nothing routes: no "interval" and no known option. */
  lemma ShowMenuIff(userInput: Option<map<string, Scalar>>)
    ensures StepInit(userInput) == ShowMenu <==>
      userInput.None? ||
      ("interval" !in userInput.value &&
       ("select_option" !in userInput.value ||
        userInput.value["select_option"] !in {Str("menu_interval"), Str("discover_sensors"), Str("action_rain"), Str("udapte_data")}))
  {
  }
}

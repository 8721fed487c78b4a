/**
 * `parseAppsInstalled`: one tab-separated line
 * `devType \t devId \t lat \t lon \t app,app,...` becomes a record or an error.
 * Float parsing (`strconv.ParseFloat`) is not modelled: it is the partial
 * function `parseFloat` every operation takes as a parameter.
 */
module Parser {
  import opened Wrappers
  import opened GoStrings
  import opened StrConv

  /** The parsed record, `AppsInstalled` in the source. */
  datatype AppsInstalled = AppsInstalled(devType: string, devId: string, lat: real, lon: real, apps: seq<uint32>)

  /** Why a line is rejected; both coordinate errors are whole-record failures. */
  datatype ParseError = MalformedLine | MissingIdentity | InvalidLat | InvalidLon

  /** The identity, coordinates and raw app list of a line that passed the field checks. */
  datatype Fields = Fields(devType: string, devId: string, lat: real, lon: real, rawApps: string)

  /** The tab-separated fields of a line, after its surrounding white space is trimmed. */
  function FieldsOf(line: string): (parts: seq<string>)
    ensures |parts| >= 1
  {
    Split(TrimSpace(line), '\t')
  }

  /**
   * The field checks, in the source's order: at least five fields, non-empty
   * type and id, then lat and lon must parse. The contents of fields after the
   * fifth are never read. The fields are those of the whole line once trimmed,
   * so empty or blank fields at either end of the line are not counted.
   */
  function CheckFields(line: string, parseFloat: string -> Option<real>): (r: Result<Fields, ParseError>)
    ensures r == Failure(MalformedLine) <==> |FieldsOf(line)| < 5
    ensures r == Failure(MissingIdentity) <==>
      |FieldsOf(line)| >= 5 && (FieldsOf(line)[0] == "" || FieldsOf(line)[1] == "")
    ensures r.Success? <==>
      |FieldsOf(line)| >= 5 && FieldsOf(line)[0] != "" && FieldsOf(line)[1] != "" &&
      parseFloat(FieldsOf(line)[2]).Some? && parseFloat(FieldsOf(line)[3]).Some?
    ensures r.Success? ==>
      var parts := FieldsOf(line);
      r.value.devType == parts[0] && r.value.devId == parts[1] &&
      parseFloat(parts[2]) == Some(r.value.lat) && parseFloat(parts[3]) == Some(r.value.lon) &&
      r.value.rawApps == parts[4]
  {
    var parts := FieldsOf(line);
    if |parts| < 5 then Failure(MalformedLine)
    else if parts[0] == "" || parts[1] == "" then Failure(MissingIdentity)
    else match parseFloat(parts[2])
      case None => Failure(InvalidLat)
      case Some(lat) =>
        match parseFloat(parts[3])
        case None => Failure(InvalidLon)
        case Some(lon) => Success(Fields(parts[0], parts[1], lat, lon, parts[4]))
  }

  /** The id a single app token stands for: the token trimmed and parsed as a uint32, if it is one. */
  function TokenId(token: string): Option<uint32> {
    ParseUint32(TrimSpace(token))
  }

  /** The app ids of a list of tokens: the tokens that are ids, in order. */
  function AppIds(tokens: seq<string>): seq<uint32> {
    FilterMap(TokenId, tokens)
  }

  /** The app list of a comma-separated field. */
  function AppList(rawApps: string): seq<uint32> {
    AppIds(Split(rawApps, ','))
  }

  /** The whole parser as a function: what `parseAppsInstalled` returns for a line. */
  function Parse(line: string, parseFloat: string -> Option<real>): (r: Result<AppsInstalled, ParseError>)
    ensures r.Success? ==> r.value.devType != "" && r.value.devId != ""
    ensures r.Failure? <==> CheckFields(line, parseFloat).Failure?
  {
    match CheckFields(line, parseFloat)
    case Failure(e) => Failure(e)
    case Success(f) => Success(AppsInstalled(f.devType, f.devId, f.lat, f.lon, AppList(f.rawApps)))
  }

  /**
   * The app loop of `parseAppsInstalled`: split at commas, trim each token, skip
   * the empty ones and the ones that are not uint32 values.
   */
  method ParseApps(rawApps: string) returns (apps: seq<uint32>)
    ensures apps == AppList(rawApps)
  {
    var appStrs := Split(rawApps, ',');
    apps := [];
    for k := 0 to |appStrs|
      invariant apps == AppIds(appStrs[..k])
    {
      assert appStrs[..k + 1][..k] == appStrs[..k];
      assert appStrs[..k + 1][k] == appStrs[k];
      var appStr := TrimSpace(appStrs[k]);
      if appStr == "" {
        continue;
      }
      var app := ParseUint32(appStr);
      if app.None? {
        continue;
      }
      apps := apps + [app.value];
    }
    assert appStrs[..|appStrs|] == appStrs;
  }

  /** `parseAppsInstalled`: the field checks, then the app loop. */
  method ParseAppsInstalled(line: string, parseFloat: string -> Option<real>)
    returns (r: Result<AppsInstalled, ParseError>)
    ensures r == Parse(line, parseFloat)
  {
    var fields := CheckFields(line, parseFloat);
    if fields.Failure? {
      return Failure(fields.error);
    }
    var f := fields.value;
    var apps := ParseApps(f.rawApps);
    r := Success(AppsInstalled(f.devType, f.devId, f.lat, f.lon, apps));
  }

  // ---------------------------------------------------------------------------
  // Properties of the app-id filter

  /** Tokens are filtered independently, so the filter distributes over concatenation. */
  lemma AppIdsAppend(a: seq<string>, b: seq<string>)
    ensures AppIds(a + b) == AppIds(a) + AppIds(b)
  {
    FilterMapAppend(TokenId, a, b);
  }

  /** Tokens are only ever dropped: there are never more ids than tokens. */
  lemma AppIdsBound(tokens: seq<string>)
    ensures |AppIds(tokens)| <= |tokens|
  {
    FilterMapBound(TokenId, tokens);
  }

  /** An id is in the list exactly when some token, trimmed, parses to it. */
  lemma AppIdsMembership(tokens: seq<string>, app: uint32)
    ensures app in AppIds(tokens) <==>
      exists i :: 0 <= i < |tokens| && ParseUint32(TrimSpace(tokens[i])) == Some(app)
  {
    FilterMapMembership(TokenId, tokens, app);
  }

  /** The decimal spellings of a list of ids, as a writer of the input format produces them. */
  function DecimalTokens(apps: seq<uint32>): (tokens: seq<string>)
    ensures |tokens| == |apps|
    ensures forall i :: 0 <= i < |tokens| ==> tokens[i] == FormatDecimal(apps[i] as nat)
  {
    if apps == [] then [] else DecimalTokens(apps[..|apps| - 1]) + [FormatDecimal(apps[|apps| - 1] as nat)]
  }

  /** When every token is a well-formed id, no token is dropped. */
  lemma {:induction false} AppIdsOfDecimalTokens(apps: seq<uint32>)
    ensures AppIds(DecimalTokens(apps)) == apps
    decreases |apps|
  {
    if apps != [] {
      var tokens := DecimalTokens(apps);
      var last := apps[|apps| - 1];
      assert tokens[..|tokens| - 1] == DecimalTokens(apps[..|apps| - 1]);
      AppIdsOfDecimalTokens(apps[..|apps| - 1]);
      ParseFormat(last);
      DigitsTrimmed(FormatDecimal(last as nat));
      assert apps[..|apps| - 1] + [last] == apps;
    }
  }

  /** A string of digits has no white space to trim. */
  lemma DigitsTrimmed(s: string)
    requires AllDigits(s)
    ensures TrimSpace(s) == s
  {
    if s != [] {
      assert IsDigit(s[0]) && IsDigit(s[|s| - 1]);
    }
    TrimSpaceTrimmed(s);
  }

  // ---------------------------------------------------------------------------
  // Properties of the whole parser

  /** A line of the input format: five tab-separated fields followed by any extra fields. */
  function FormatLine(devType: string, devId: string, latStr: string, lonStr: string,
                      apps: seq<uint32>, extra: seq<string>): string
  {
    Join([devType, devId, latStr, lonStr, Join(DecimalTokens(apps), ',')] + extra, '\t')
  }

  /**
   * Round trip: a well-formed line parses to the record it was written from.
   * Its fields hold no tab, its identity fields are non-empty, its coordinates
   * parse, and the line does not start or end with white space (TrimSpace would
   * otherwise eat into its first or last field). The contents of the extra
   * fields are never read. The app list may be empty when an extra field ends
   * the line, since the line must still end in a character that is not white space.
   */
  lemma ParseFormattedLine(devType: string, devId: string, latStr: string, lonStr: string,
                           apps: seq<uint32>, extra: seq<string>,
                           parseFloat: string -> Option<real>, lat: real, lon: real)
    requires devType != "" && devId != ""
    requires '\t' !in devType && '\t' !in devId && '\t' !in latStr && '\t' !in lonStr
    requires forall i :: 0 <= i < |extra| ==> '\t' !in extra[i]
    requires parseFloat(latStr) == Some(lat) && parseFloat(lonStr) == Some(lon)
    requires Trimmed(FormatLine(devType, devId, latStr, lonStr, apps, extra))
    ensures Parse(FormatLine(devType, devId, latStr, lonStr, apps, extra), parseFloat)
         == Success(AppsInstalled(devType, devId, lat, lon, apps))
  {
    var tokens := DecimalTokens(apps);
    var rawApps := Join(tokens, ',');
    var parts := [devType, devId, latStr, lonStr, rawApps] + extra;
    var line := FormatLine(devType, devId, latStr, lonStr, apps, extra);
    forall i | 0 <= i < |tokens| ensures '\t' !in tokens[i] && ',' !in tokens[i] {
      NoSeparatorsInDigits(tokens[i]);
    }
    JoinExcludes(tokens, ',', '\t');
    FieldsOfJoin(parts);
    if apps == [] {
      assert Split(rawApps, ',') == [""];
      assert TrimSpace("") == "";
      assert AppIds([""]) == AppIds([]) + [];
    } else {
      SplitJoin(tokens, ',');
      AppIdsOfDecimalTokens(apps);
    }
  }

  /** A string of digits holds neither field nor token separators. */
  lemma NoSeparatorsInDigits(s: string)
    requires AllDigits(s)
    ensures '\t' !in s && ',' !in s
  {
  }

  /** The fields of a trimmed line built by joining tab-free fields are those fields. */
  lemma FieldsOfJoin(parts: seq<string>)
    requires |parts| >= 1
    requires forall i :: 0 <= i < |parts| ==> '\t' !in parts[i]
    requires Trimmed(Join(parts, '\t'))
    ensures FieldsOf(Join(parts, '\t')) == parts
  {
    TrimSpaceTrimmed(Join(parts, '\t'));
    SplitJoin(parts, '\t');
  }

  /** The fields of a trimmed line made of five tab-free fields. */
  lemma FieldsOfFive(line: string, f0: string, f1: string, f2: string, f3: string, f4: string)
    requires line == f0 + "\t" + f1 + "\t" + f2 + "\t" + f3 + "\t" + f4
    requires '\t' !in f0 && '\t' !in f1 && '\t' !in f2 && '\t' !in f3 && '\t' !in f4
    requires Trimmed(line)
    ensures FieldsOf(line) == [f0, f1, f2, f3, f4]
  {
    var parts := [f0, f1, f2, f3, f4];
    JoinCons(f0, parts[1..], '\t');
    JoinCons(f1, parts[2..], '\t');
    JoinCons(f2, parts[3..], '\t');
    JoinCons(f3, parts[4..], '\t');
    assert parts[4..] == [f4];
    assert Join(parts, '\t') == line;
    FieldsOfJoin(parts);
  }

  /** The fields of a trimmed line made of six tab-free fields. */
  lemma FieldsOfSix(line: string, f0: string, f1: string, f2: string, f3: string, f4: string, f5: string)
    requires line == f0 + "\t" + f1 + "\t" + f2 + "\t" + f3 + "\t" + f4 + "\t" + f5
    requires '\t' !in f0 && '\t' !in f1 && '\t' !in f2 && '\t' !in f3 && '\t' !in f4 && '\t' !in f5
    requires Trimmed(line)
    ensures FieldsOf(line) == [f0, f1, f2, f3, f4, f5]
  {
    var parts := [f0, f1, f2, f3, f4, f5];
    JoinCons(f0, parts[1..], '\t');
    JoinCons(f1, parts[2..], '\t');
    JoinCons(f2, parts[3..], '\t');
    JoinCons(f3, parts[4..], '\t');
    JoinCons(f4, parts[5..], '\t');
    assert parts[5..] == [f5];
    assert Join(parts, '\t') == line;
    FieldsOfJoin(parts);
  }

  /** A first piece that is empty, followed by more pieces, means the string starts with the separator. */
  lemma SplitFirstEmpty(s: string, sep: char)
    ensures |Split(s, sep)| >= 2 && Split(s, sep)[0] == "" ==> s != [] && s[0] == sep
  {
    var parts := Split(s, sep);
    if |parts| >= 2 && parts[0] == "" {
      assert parts == [parts[0]] + parts[1..];
      JoinCons(parts[0], parts[1..], sep);
    }
  }

  /**
   * The line is trimmed before it is split, so it never starts with a tab and
   * its first field is never empty: a line is rejected for a missing identity
   * only when its device id is empty.
   */
  lemma MissingIdentityMeansEmptyDevId(line: string, parseFloat: string -> Option<real>)
    ensures CheckFields(line, parseFloat) == Failure(MissingIdentity) ==> FieldsOf(line)[0] != "" && FieldsOf(line)[1] == ""
  {
    SplitFirstEmpty(TrimSpace(line), '\t');
  }

  /**
   * An empty app list at the end of a line is trailing white space: TrimSpace
   * removes the last tab, the line has four fields and is malformed.
   */
  lemma EmptyLastFieldMalformed(f0: string, f1: string, f2: string, f3: string, parseFloat: string -> Option<real>)
    requires '\t' !in f0 && '\t' !in f1 && '\t' !in f2 && '\t' !in f3
    requires Trimmed(f0 + "\t" + f1 + "\t" + f2 + "\t" + f3)
    ensures Parse(f0 + "\t" + f1 + "\t" + f2 + "\t" + f3 + "\t", parseFloat) == Failure(MalformedLine)
  {
    var parts := [f0, f1, f2, f3];
    var core := f0 + "\t" + f1 + "\t" + f2 + "\t" + f3;
    JoinCons(f0, parts[1..], '\t');
    JoinCons(f1, parts[2..], '\t');
    JoinCons(f2, parts[3..], '\t');
    assert parts[3..] == [f3];
    assert Join(parts, '\t') == core;
    assert f0 + "\t" + f1 + "\t" + f2 + "\t" + f3 + "\t" == "" + core + "\t";
    TrimSpacePadded("", core, "\t");
    SplitJoin(parts, '\t');
  }

  /**
   * Empty identity fields at the start of a line are leading white space:
   * TrimSpace removes both tabs, the line has three fields and is malformed.
   */
  lemma EmptyIdentityMalformed(f2: string, f3: string, f4: string, parseFloat: string -> Option<real>)
    requires '\t' !in f2 && '\t' !in f3 && '\t' !in f4
    requires Trimmed(f2 + "\t" + f3 + "\t" + f4)
    ensures Parse("\t\t" + f2 + "\t" + f3 + "\t" + f4, parseFloat) == Failure(MalformedLine)
  {
    var parts := [f2, f3, f4];
    var core := f2 + "\t" + f3 + "\t" + f4;
    JoinCons(f2, parts[1..], '\t');
    JoinCons(f3, parts[2..], '\t');
    assert parts[2..] == [f4];
    assert Join(parts, '\t') == core;
    assert "\t\t" + f2 + "\t" + f3 + "\t" + f4 == "\t\t" + core + "";
    TrimSpacePadded("\t\t", core, "");
    SplitJoin(parts, '\t');
  }

  /**
   * The whole line is trimmed before it is split, so white space at either end
   * of it, tabs included, does not change how it parses: empty or blank fields
   * at either end vanish, and the fields left are counted and read from the left.
   */
  lemma PaddingIgnored(pre: string, line: string, post: string, parseFloat: string -> Option<real>)
    requires AllSpace(pre) && AllSpace(post)
    ensures Parse(pre + line + post, parseFloat) == Parse(line, parseFloat)
  {
    assert pre + line + post == pre + (line + post);
    TrimSpaceLeading(pre, line + post);
    TrimSpaceTrailing(line, post);
    assert FieldsOf(pre + line + post) == FieldsOf(line);
  }

  /**
   * White space in front of a line is trimmed away before the split, so it does
   * not change how the line parses. Empty leading fields are such white space:
   * each of them moves every later field one place to the left.
   */
  lemma LeadingSpaceIgnored(pre: string, line: string, parseFloat: string -> Option<real>)
    requires AllSpace(pre)
    ensures Parse(pre + line, parseFloat) == Parse(line, parseFloat)
  {
    TrimSpaceLeading(pre, line);
    assert FieldsOf(pre + line) == FieldsOf(line);
  }

  /**
   * An empty device type in front of a well-formed line is eaten by TrimSpace:
   * instead of MissingIdentity, the next five fields are read as type, id,
   * coordinates and apps, so the record is routed by its second field.
   */
  lemma EmptyTypeShiftsFields(devType: string, devId: string, latStr: string, lonStr: string,
                              apps: seq<uint32>, extra: seq<string>,
                              parseFloat: string -> Option<real>, lat: real, lon: real)
    requires devType != "" && devId != ""
    requires '\t' !in devType && '\t' !in devId && '\t' !in latStr && '\t' !in lonStr
    requires forall i :: 0 <= i < |extra| ==> '\t' !in extra[i]
    requires parseFloat(latStr) == Some(lat) && parseFloat(lonStr) == Some(lon)
    requires Trimmed(FormatLine(devType, devId, latStr, lonStr, apps, extra))
    ensures Parse("\t" + FormatLine(devType, devId, latStr, lonStr, apps, extra), parseFloat)
         == Success(AppsInstalled(devType, devId, lat, lon, apps))
  {
    LeadingSpaceIgnored("\t", FormatLine(devType, devId, latStr, lonStr, apps, extra), parseFloat);
    ParseFormattedLine(devType, devId, latStr, lonStr, apps, extra, parseFloat, lat, lon);
  }
}

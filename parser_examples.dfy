/**
 * Example lines of the input format run through the parser's model: a bad app
 * token, a bad latitude, empty identity fields and an empty app list.
 */
module ParserExamples {
  import opened Wrappers
  import opened GoStrings
  import opened StrConv
  import opened Parser

  /** The line holding five fields separated by tabs. */
  function Tsv(f0: string, f1: string, f2: string, f3: string, f4: string): string {
    f0 + "\t" + f1 + "\t" + f2 + "\t" + f3 + "\t" + f4
  }

  /** "x" is not an id and is skipped; the ids around it are kept in order. */
  lemma BadTokenSkipped(t0: string, t1: string, t2: string)
    requires t0 == "1" && t1 == "x" && t2 == "3"
    ensures AppList(t0 + "," + t1 + "," + t2) == [1, 3]
  {
    var ts := [t0, t1, t2];
    JoinCons(t0, ts[1..], ',');
    JoinCons(t1, ts[2..], ',');
    assert ts[2..] == [t2];
    assert Join(ts, ',') == t0 + "," + t1 + "," + t2;
    SplitJoin(ts, ',');
    TrimSpaceTrimmed(t0);
    TrimSpaceTrimmed(t1);
    TrimSpaceTrimmed(t2);
    ParseFormat(1);
    ParseFormat(3);
    assert !IsDigit(t1[0]);
    assert TokenId(t0) == Some(1) && TokenId(t1) == None && TokenId(t2) == Some(3);
    assert [t0][..0] == [] && [t1][..0] == [] && [t2][..0] == [];
    assert ts == [t0] + [t1] + [t2];
    AppIdsAppend([t0] + [t1], [t2]);
    AppIdsAppend([t0], [t1]);
  }

  /** "3" is the list holding the one id 3. */
  lemma SingleTokenList(t: string)
    requires t == "3"
    ensures AppList(t) == [3]
  {
    assert Join([t], ',') == t;
    SplitJoin([t], ',');
    TrimSpaceTrimmed(t);
    ParseFormat(3);
    assert TokenId(t) == Some(3);
    assert [t][..0] == [];
    assert FilterMap(TokenId, [t][..0]) == [];
    assert [t][|[t]| - 1] == t;
  }

  /** An empty app field is the one empty token, which is not an id. */
  lemma EmptyAppList(t: string)
    requires t == ""
    ensures AppList(t) == []
  {
    assert Split(t, ',') == [t];
    assert TokenId(t) == None;
    assert [t][..0] == [];
  }

  /** A bad latitude rejects the whole line. */
  lemma BadLatitudeRejected(devType: string, devId: string, latStr: string, lonStr: string, rawApps: string,
                            parseFloat: string -> Option<real>)
    requires devType == "idfa" && devId == "1rfw452y52g2gq4g"
    requires latStr == "bad" && lonStr == "42.42" && rawApps == "1,2,3"
    requires parseFloat(latStr) == None
    ensures Parse(Tsv(devType, devId, latStr, lonStr, rawApps), parseFloat) == Failure(InvalidLat)
  {
    FieldsOfFive(Tsv(devType, devId, latStr, lonStr, rawApps), devType, devId, latStr, lonStr, rawApps);
  }

  /**
   * A line whose identity fields are both empty loses its two leading tabs to
   * TrimSpace, so it has three fields and is rejected as malformed, before the
   * identity check is reached.
   */
  lemma LeadingTabsTrimmed(latStr: string, lonStr: string, rawApps: string, parseFloat: string -> Option<real>)
    requires latStr == "55.55" && lonStr == "42.42" && rawApps == "1"
    ensures Parse(Tsv("", "", latStr, lonStr, rawApps), parseFloat) == Failure(MalformedLine)
  {
    assert Tsv("", "", latStr, lonStr, rawApps) == "\t\t" + latStr + "\t" + lonStr + "\t" + rawApps;
    EmptyIdentityMalformed(latStr, lonStr, rawApps, parseFloat);
  }

  /**
   * An empty app list at the end of the line is white space at the end of the
   * line: TrimSpace removes the last tab and the line is rejected as malformed.
   */
  lemma TrailingEmptyAppsTrimmed(devType: string, devId: string, latStr: string, lonStr: string,
                                 parseFloat: string -> Option<real>)
    requires devType == "idfa" && devId == "ID1" && latStr == "55.55" && lonStr == "42.42"
    ensures Parse(Tsv(devType, devId, latStr, lonStr, ""), parseFloat) == Failure(MalformedLine)
  {
    assert Tsv(devType, devId, latStr, lonStr, "") == devType + "\t" + devId + "\t" + latStr + "\t" + lonStr + "\t";
    EmptyLastFieldMalformed(devType, devId, latStr, lonStr, parseFloat);
  }

  /** A line with a bad app token still parses; only the token is dropped. */
  lemma BadTokenLineParses(devType: string, devId: string, latStr: string, lonStr: string, rawApps: string,
                           parseFloat: string -> Option<real>, lat: real, lon: real)
    requires devType == "idfa" && devId == "ID1"
    requires latStr == "55.55" && lonStr == "42.42" && rawApps == "1,x,3"
    requires parseFloat(latStr) == Some(lat) && parseFloat(lonStr) == Some(lon)
    ensures Parse(Tsv(devType, devId, latStr, lonStr, rawApps), parseFloat)
         == Success(AppsInstalled(devType, devId, lat, lon, [1, 3]))
  {
    var line := Tsv(devType, devId, latStr, lonStr, rawApps);
    FieldsOfFive(line, devType, devId, latStr, lonStr, rawApps);
    assert CheckFields(line, parseFloat) == Success(Fields(devType, devId, lat, lon, rawApps));
    assert rawApps == "1" + "," + "x" + "," + "3";
    BadTokenSkipped("1", "x", "3");
  }

  /**
   * "\tidfa\tX\t1\t2\t3": an empty type field in front of five fields is
   * trimmed away, so "idfa" is read as the type, "X" as the id, "1" and "2" as
   * the coordinates and "3" as the app list.
   */
  lemma LeadingTabShiftsFields(devType: string, devId: string, latStr: string, lonStr: string, rawApps: string,
                               parseFloat: string -> Option<real>, lat: real, lon: real)
    requires devType == "idfa" && devId == "X"
    requires latStr == "1" && lonStr == "2" && rawApps == "3"
    requires parseFloat(latStr) == Some(lat) && parseFloat(lonStr) == Some(lon)
    ensures Parse("\t" + Tsv(devType, devId, latStr, lonStr, rawApps), parseFloat)
         == Success(AppsInstalled(devType, devId, lat, lon, [3]))
  {
    var line := Tsv(devType, devId, latStr, lonStr, rawApps);
    FieldsOfFive(line, devType, devId, latStr, lonStr, rawApps);
    SingleTokenList(rawApps);
    assert Parse(line, parseFloat) == Success(AppsInstalled(devType, devId, lat, lon, [3]));
    LeadingSpaceIgnored("\t", line, parseFloat);
  }

  /**
   * "idfa\tX\t1\t2\t\t7": the sixth field keeps TrimSpace away from the empty
   * fifth one, so the line is a record with no apps. Without the sixth field
   * the line is malformed (TrailingEmptyAppsTrimmed).
   */
  lemma ExtraFieldKeepsEmptyApps(devType: string, devId: string, latStr: string, lonStr: string, extra: string,
                                 parseFloat: string -> Option<real>, lat: real, lon: real)
    requires devType == "idfa" && devId == "X" && latStr == "1" && lonStr == "2" && extra == "7"
    requires parseFloat(latStr) == Some(lat) && parseFloat(lonStr) == Some(lon)
    ensures Parse(Tsv(devType, devId, latStr, lonStr, "") + "\t" + extra, parseFloat)
         == Success(AppsInstalled(devType, devId, lat, lon, []))
  {
    var line := Tsv(devType, devId, latStr, lonStr, "") + "\t" + extra;
    assert line == devType + "\t" + devId + "\t" + latStr + "\t" + lonStr + "\t" + "" + "\t" + extra;
    FieldsOfSix(line, devType, devId, latStr, lonStr, "", extra);
    EmptyAppList("");
    assert CheckFields(line, parseFloat) == Success(Fields(devType, devId, lat, lon, ""));
  }
}

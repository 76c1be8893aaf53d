/**
 * The EXIF side of the upload path: degrees/minutes/seconds to decimal
 * degrees, the EXIF stamp "YYYY:MM:DD HH:MM:SS" turned into a date and an
 * hour:minute time, make and model joined into a drone name, and the
 * extraction that assembles an image's metadata from the tags read from
 * the file, falling back to today's date, the current time, the origin
 * and "Sconosciuto" for whatever is missing.
 */
module ExifService {
  import opened Types
  import opened JsStrings

  /** The drone name used when the file names neither make nor model. */
  const UnknownModel: string := "Sconosciuto"

  // ---------------------------------------------------------------------
  // Coordinates
  // ---------------------------------------------------------------------

  /** Degrees plus minutes plus seconds, in degrees. */
  function Magnitude(dms: seq<real>): real
    requires |dms| >= 3
  {
    dms[0] + dms[1] / 60.0 + dms[2] / 3600.0
  }

  /** The references of the southern and western hemispheres. */
  predicate SouthOrWest(ref: string) {
    ref == "S" || ref == "W"
  }

  /**
   * `convertDMSToDD`: a missing list or one with fewer than three
   * components gives 0; otherwise the magnitude, negated exactly for the
   * "S" and "W" references.
   */
  function ConvertDMSToDD(dms: Option<seq<real>>, ref: string): (r: real)
    ensures dms.None? || |dms.value| < 3 ==> r == 0.0
    ensures dms.Some? && |dms.value| >= 3 ==> r == (if SouthOrWest(ref) then -1.0 else 1.0) * Magnitude(dms.value)
  {
    if dms.None? || |dms.value| < 3 then 0.0
    else
      var dd := Magnitude(dms.value);
      if SouthOrWest(ref) then dd * -1.0 else dd
  }

  // ---------------------------------------------------------------------
  // Date and time from the EXIF stamp
  // ---------------------------------------------------------------------

  /** The ':'-separated fields of the stamp's first space-separated token. */
  function DateFields(s: string): (r: seq<string>)
    ensures |r| >= 1
  {
    Split(Split(s, ' ')[0], ':')
  }

  /**
   * `parseExifDate`: the three fields of the first token joined with '-';
   * an empty stamp, or a first token without exactly three fields, gives
   * `today`. The source's test `parts.length > 0` always holds, since a
   * split is never empty.
   */
  function ParseExifDate(s: string, today: string): (r: string)
    ensures s == "" || |DateFields(s)| != 3 ==> r == today
    ensures s != "" && |DateFields(s)| == 3 ==> r == Join(DateFields(s), '-')
  {
    if s == "" then today
    else
      var parts := Split(s, ' ');
      var dateParts := Split(parts[0], ':');
      if |dateParts| == 3 then
        assert dateParts == [dateParts[0], dateParts[1], dateParts[2]];
        JoinThree(dateParts[0], dateParts[1], dateParts[2], '-');
        dateParts[0] + "-" + dateParts[1] + "-" + dateParts[2]
      else today
  }

  /** `s.split(' ')[1]`: the second space-separated token, absent when there is none. */
  function TimeToken(s: string): (r: Option<string>)
    ensures r.Some? <==> |Split(s, ' ')| >= 2
    ensures r.Some? ==> ' ' !in r.value
  {
    var parts := Split(s, ' ');
    if |parts| >= 2 then Some(parts[1]) else None
  }

  /**
   * The time taken from the stamp: with a non-empty second token, its
   * first ':' field, a ':', and its second field, which JavaScript renders
   * as "undefined" when there is none; otherwise `current` is kept.
   */
  function TimeOf(s: string, current: string): (r: string)
    ensures !Truthy(TimeToken(s)) ==> r == current
    ensures Truthy(TimeToken(s)) ==> ' ' !in r && ':' in r
  {
    var token := TimeToken(s);
    if Truthy(token) then
      var fields := Split(token.value, ':');
      var minutes := if |fields| >= 2 then fields[1] else "undefined";
      var r := fields[0] + ":" + minutes;
      assert r[|fields[0]|] == ':';
      SplitAvoids(token.value, ':', ' ');
      r
    else current
  }

  // ---------------------------------------------------------------------
  // Drone model
  // ---------------------------------------------------------------------

  /** `x || ''` on an optional string tag. */
  function OrEmpty(s: Option<string>): (r: string)
    ensures Truthy(s) <==> r != ""
    ensures Truthy(s) ==> r == s.value
  {
    if Truthy(s) then s.value else ""
  }

  /**
   * The drone name: make and model joined by a space and trimmed when
   * either is non-empty, "Sconosciuto" when that leaves nothing.
   */
  function DroneModelOf(make: Option<string>, model: Option<string>): (r: string)
    ensures r != ""
    ensures !Truthy(make) && !Truthy(model) ==> r == UnknownModel
    ensures (Truthy(make) || Truthy(model)) && Trim(OrEmpty(make) + " " + OrEmpty(model)) != "" ==> r == Trim(OrEmpty(make) + " " + OrEmpty(model))
    ensures Trim(OrEmpty(make) + " " + OrEmpty(model)) == "" ==> r == UnknownModel
  {
    var mk := OrEmpty(make);
    var md := OrEmpty(model);
    var joined := if mk != "" || md != "" then Trim(mk + " " + md) else "";
    if joined != "" then joined else UnknownModel
  }

  // ---------------------------------------------------------------------
  // Extraction
  // ---------------------------------------------------------------------

  /** The tags the EXIF library returns, each possibly absent. */
  datatype ExifTags = ExifTags(
    gpsLatitude: Option<seq<real>>,
    gpsLatitudeRef: Option<string>,
    gpsLongitude: Option<seq<real>>,
    gpsLongitudeRef: Option<string>,
    gpsAltitude: Option<real>,
    dateTimeOriginal: Option<string>,
    dateTime: Option<string>,
    make: Option<string>,
    model: Option<string>)

  /**
   * What reading the file gave: the library missing, the 3-second timeout
   * or a thrown error (`Unavailable`), or the library's answer, whose tag
   * object may itself be empty.
   */
  datatype ExifRead = Unavailable | Answered(tags: Option<ExifTags>)

  /** The metadata used when nothing could be read: today, now, the origin, no altitude, an unknown drone. */
  function DefaultMetadata(today: string, nowTime: string): (r: Metadata)
    ensures r.coordinates == Coordinates(0.0, 0.0) && r.altitude == 0.0
    ensures r.date == today && r.time == nowTime && r.droneModel == UnknownModel
  {
    Metadata(today, nowTime, Coordinates(0.0, 0.0), 0.0, UnknownModel)
  }

  /** `Math.round`: the nearest integer, halves rounded up. */
  function Round(x: real): (r: real)
    ensures r == r.Floor as real
    ensures x - 0.5 < r <= x + 0.5
  {
    (x + 0.5).Floor as real
  }

  /** `DateTimeOriginal || DateTime`. */
  function Stamp(t: ExifTags): (r: Option<string>)
    ensures Truthy(t.dateTimeOriginal) ==> r == t.dateTimeOriginal
    ensures !Truthy(t.dateTimeOriginal) ==> r == t.dateTime
  {
    if Truthy(t.dateTimeOriginal) then t.dateTimeOriginal else t.dateTime
  }

  /** A coordinate is read only when both its list and its reference are given. */
  function CoordinateOf(dms: Option<seq<real>>, ref: Option<string>): (r: real)
    ensures dms.None? || !Truthy(ref) ==> r == 0.0
    ensures dms.Some? && Truthy(ref) ==> r == ConvertDMSToDD(dms, ref.value)
  {
    if dms.Some? && Truthy(ref) then ConvertDMSToDD(dms, ref.value) else 0.0
  }

  /** The metadata the tags describe, each field falling back on its own. */
  function MetadataFromTags(t: ExifTags, today: string, nowTime: string): (r: Metadata)
    ensures r.coordinates == Coordinates(CoordinateOf(t.gpsLatitude, t.gpsLatitudeRef), CoordinateOf(t.gpsLongitude, t.gpsLongitudeRef))
    ensures r.altitude == (if t.gpsAltitude.Some? && t.gpsAltitude.value != 0.0 then Round(t.gpsAltitude.value) else 0.0)
    ensures r.date == (if Truthy(Stamp(t)) then ParseExifDate(Stamp(t).value, today) else today)
    ensures r.time == (if Truthy(Stamp(t)) then TimeOf(Stamp(t).value, nowTime) else nowTime)
    ensures r.droneModel == DroneModelOf(t.make, t.model)
  {
    var stamp := Stamp(t);
    Metadata(
      if Truthy(stamp) then ParseExifDate(stamp.value, today) else today,
      if Truthy(stamp) then TimeOf(stamp.value, nowTime) else nowTime,
      Coordinates(CoordinateOf(t.gpsLatitude, t.gpsLatitudeRef), CoordinateOf(t.gpsLongitude, t.gpsLongitudeRef)),
      if t.gpsAltitude.Some? && t.gpsAltitude.value != 0.0 then Round(t.gpsAltitude.value) else 0.0,
      DroneModelOf(t.make, t.model))
  }

  /**
   * `extractExifMetadata`: start from the defaults, then overwrite each
   * local from the tags that are present, and finally fall back to
   * "Sconosciuto" for an empty drone name.
   */
  method ExtractExifMetadata(read: ExifRead, today: string, nowTime: string) returns (md: Metadata)
    ensures read.Unavailable? ==> md == DefaultMetadata(today, nowTime)
    ensures read.Answered? && read.tags.None? ==> md == DefaultMetadata(today, nowTime)
    ensures read.Answered? && read.tags.Some? ==> md == MetadataFromTags(read.tags.value, today, nowTime)
  {
    if read.Unavailable? {
      return DefaultMetadata(today, nowTime);
    }
    var lat := 0.0;
    var lng := 0.0;
    var date := today;
    var time := nowTime;
    var altitude := 0.0;
    var droneModel := "";
    if read.tags.Some? {
      var t := read.tags.value;
      if t.gpsLatitude.Some? && Truthy(t.gpsLatitudeRef) {
        lat := ConvertDMSToDD(t.gpsLatitude, t.gpsLatitudeRef.value);
      }
      if t.gpsLongitude.Some? && Truthy(t.gpsLongitudeRef) {
        lng := ConvertDMSToDD(t.gpsLongitude, t.gpsLongitudeRef.value);
      }
      if t.gpsAltitude.Some? && t.gpsAltitude.value != 0.0 {
        altitude := Round(t.gpsAltitude.value);
      }
      var dateTimeOriginal := if Truthy(t.dateTimeOriginal) then t.dateTimeOriginal else t.dateTime;
      if Truthy(dateTimeOriginal) {
        date := ParseExifDate(dateTimeOriginal.value, today);
        var timePart := TimeToken(dateTimeOriginal.value);
        if Truthy(timePart) {
          var fields := Split(timePart.value, ':');
          var m := if |fields| >= 2 then fields[1] else "undefined";
          time := fields[0] + ":" + m;
        }
        assert time == TimeOf(dateTimeOriginal.value, nowTime);
      }
      var make := OrEmpty(t.make);
      var model := OrEmpty(t.model);
      if make != "" || model != "" {
        droneModel := Trim(make + " " + model);
      }
      assert dateTimeOriginal == Stamp(t);
      assert (if droneModel != "" then droneModel else UnknownModel) == DroneModelOf(t.make, t.model);
      assert Coordinates(lat, lng) == Coordinates(CoordinateOf(t.gpsLatitude, t.gpsLatitudeRef), CoordinateOf(t.gpsLongitude, t.gpsLongitudeRef));
    }
    md := Metadata(date, time, Coordinates(lat, lng), altitude, if droneModel != "" then droneModel else UnknownModel);
  }

  // ---------------------------------------------------------------------
  // Properties
  // ---------------------------------------------------------------------

  /** Mirroring the hemisphere flips the sign and nothing else. */
  lemma HemisphereMirror(dms: Option<seq<real>>)
    ensures ConvertDMSToDD(dms, "S") == -ConvertDMSToDD(dms, "N")
    ensures ConvertDMSToDD(dms, "W") == -ConvertDMSToDD(dms, "E")
  {
  }

  /** With non-negative components and a non-zero magnitude the result is negative exactly for "S" and "W". */
  lemma SignFollowsReference(dms: seq<real>, ref: string)
    requires |dms| >= 3 && dms[0] >= 0.0 && dms[1] >= 0.0 && dms[2] >= 0.0 && Magnitude(dms) != 0.0
    ensures ConvertDMSToDD(Some(dms), ref) < 0.0 <==> SouthOrWest(ref)
    ensures ConvertDMSToDD(Some(dms), ref) > 0.0 <==> !SouthOrWest(ref)
  {
  }

  /** Only the first three components count. */
  lemma ExtraComponentsIgnored(dms: seq<real>, extra: seq<real>, ref: string)
    requires |dms| >= 3
    ensures ConvertDMSToDD(Some(dms + extra), ref) == ConvertDMSToDD(Some(dms[..3]), ref)
  {
    assert (dms + extra)[..3] == dms[..3];
  }

  /** A stamp "Y:M:D" followed by nothing or by a space-separated rest becomes "Y-M-D", whatever the fields hold. */
  lemma ParseExifDateOfStamp(y: string, mo: string, d: string, rest: string, today: string)
    requires ' ' !in y && ' ' !in mo && ' ' !in d && ':' !in y && ':' !in mo && ':' !in d
    requires rest == "" || rest[0] == ' '
    ensures ParseExifDate(y + ":" + mo + ":" + d + rest, today) == y + "-" + mo + "-" + d
  {
    var date := y + ":" + mo + ":" + d;
    assert ' ' !in date;
    FirstTokenOf(date, rest);
    SplitThree(y, mo, d, ':');
    JoinThree(y, mo, d, '-');
  }

  /** The first space-separated token of a token followed by nothing or by a space. */
  lemma FirstTokenOf(token: string, rest: string)
    requires ' ' !in token
    requires rest == "" || rest[0] == ' '
    ensures Split(token + rest, ' ')[0] == token
  {
    if rest == "" {
      assert token + rest == token;
      SplitNoSep(token, ' ');
    } else {
      assert token + rest == token + [' '] + rest[1..];
      SplitCons(token, rest[1..], ' ');
    }
  }

  /** The stamp "2024:07:24 14:32:15" gives the date "2024-07-24". */
  lemma StampDateExample(today: string)
    ensures ParseExifDate("2024:07:24 14:32:15", today) == "2024-07-24"
  {
    ParseExifDateOfStamp("2024", "07", "24", " 14:32:15", today);
    assert "2024" + ":" + "07" + ":" + "24" + " 14:32:15" == "2024:07:24 14:32:15";
    assert "2024" + "-" + "07" + "-" + "24" == "2024-07-24";
  }

  /** The stamp "2024:07:24 14:32:15" gives the time "14:32". */
  lemma StampTimeExample(nowTime: string)
    ensures TimeOf("2024:07:24 14:32:15", nowTime) == "14:32"
  {
    TimeOfStamp("2024:07:24", "14", "32", "15", nowTime);
    assert "2024:07:24" + " " + "14" + ":" + "32" + ":" + "15" == "2024:07:24 14:32:15";
    assert "14" + ":" + "32" == "14:32";
  }

  /** A stamp without any ':' has a one-field first token, so the date falls back to today. */
  lemma NoColonFallsBack(s: string, today: string)
    requires ':' !in s
    ensures ParseExifDate(s, today) == today
  {
    SplitAvoids(s, ' ', ':');
    SplitNoSep(Split(s, ' ')[0], ':');
  }

  /** Splitting a parsed date at '-' gives the stamp's date fields back, when they hold no '-'. */
  lemma ParseExifDateRoundTrip(s: string, today: string)
    requires s != "" && |DateFields(s)| == 3
    requires forall i :: 0 <= i < 3 ==> '-' !in DateFields(s)[i]
    ensures Split(ParseExifDate(s, today), '-') == DateFields(s)
  {
    SplitJoin(DateFields(s), '-');
  }

  /** "date h:m:s" gives the time "h:m". */
  lemma TimeOfStamp(date: string, h: string, m: string, sec: string, current: string)
    requires ' ' !in date && ' ' !in h && ' ' !in m && ' ' !in sec && ':' !in h && ':' !in m && ':' !in sec
    ensures TimeOf(date + " " + h + ":" + m + ":" + sec, current) == h + ":" + m
  {
    var time := h + ":" + m + ":" + sec;
    assert ' ' !in time;
    assert date + " " + h + ":" + m + ":" + sec == date + [' '] + time;
    assert time == h + [':'] + m + [':'] + sec;
    SplitTwo(date, time, ' ');
    SplitThree(h, m, sec, ':');
  }

  /** A time token without ':' gives its hour followed by ":undefined". */
  lemma {:induction false} TimeWithoutMinutes(date: string, h: string, current: string)
    requires ' ' !in date && ' ' !in h && ':' !in h && h != ""
    ensures TimeOf(date + " " + h, current) == h + ":undefined"
  {
    SplitCons(date, h, ' ');
    SplitNoSep(h, ' ');
    assert Split(date + [' '] + h, ' ') == [date, h];
    SplitNoSep(h, ':');
  }

  /** A stamp with no space has no time token, so the current time is kept. */
  lemma NoTimeTokenKeepsCurrent(s: string, current: string)
    requires ' ' !in s
    ensures TimeOf(s, current) == current
  {
    SplitNoSep(s, ' ');
  }

  /** A trimmed make alone is the drone name as it is. */
  lemma MakeAlone(make: string)
    requires make != "" && !IsWhitespace(make[0]) && !IsWhitespace(make[|make| - 1])
    ensures DroneModelOf(Some(make), None) == make
  {
    assert make + " " + "" == "" + make + " ";
    TrimPadded("", make, " ");
  }

  /** A trimmed model alone is the drone name as it is. */
  lemma ModelAlone(model: string)
    requires model != "" && !IsWhitespace(model[0]) && !IsWhitespace(model[|model| - 1])
    ensures DroneModelOf(None, Some(model)) == model
  {
    assert "" + " " + model == " " + model + "";
    TrimPadded(" ", model, "");
  }

  /** Trimmed make and model are joined by one space. */
  lemma MakeAndModel(make: string, model: string)
    requires make != "" && !IsWhitespace(make[0]) && !IsWhitespace(make[|make| - 1])
    requires model != "" && !IsWhitespace(model[0]) && !IsWhitespace(model[|model| - 1])
    ensures DroneModelOf(Some(make), Some(model)) == make + " " + model
  {
    var joined := make + " " + model;
    assert joined == "" + joined + "";
    assert joined[0] == make[0] && joined[|joined| - 1] == model[|model| - 1];
    TrimPadded("", joined, "");
  }

  /** The drone name never starts or ends with white space. */
  lemma DroneNameTrimmed(make: Option<string>, model: Option<string>)
    ensures var r := DroneModelOf(make, model); !IsWhitespace(r[0]) && !IsWhitespace(r[|r| - 1])
  {
    var r := DroneModelOf(make, model);
    var joined := Trim(OrEmpty(make) + " " + OrEmpty(model));
    if (Truthy(make) || Truthy(model)) && joined != "" {
      assert r == joined;
    } else {
      assert r == UnknownModel;
      assert r[0] == 'S' && r[|r| - 1] == 'o';
    }
  }

  /** Make and model made of white space only leave the drone unknown. */
  lemma BlankNamesAreUnknown(make: string, model: string)
    requires forall k :: 0 <= k < |make| ==> IsWhitespace(make[k])
    requires forall k :: 0 <= k < |model| ==> IsWhitespace(model[k])
    ensures DroneModelOf(Some(make), Some(model)) == UnknownModel
  {
    var joined := OrEmpty(Some(make)) + " " + OrEmpty(Some(model));
    assert joined == make + [' '] + model;
    forall k | 0 <= k < |joined| ensures IsWhitespace(joined[k]) {
      if k < |make| {
        assert joined[k] == make[k];
      } else if k > |make| {
        assert joined[k] == model[k - |make| - 1];
      }
    }
    TrimBlank(joined);
  }

  /** An empty tag object gives the same metadata as no library at all. */
  lemma EmptyTagsAreDefault(today: string, nowTime: string)
    ensures MetadataFromTags(ExifTags(None, None, None, None, None, None, None, None, None), today, nowTime) == DefaultMetadata(today, nowTime)
  {
  }

  /** When the original stamp is missing or empty, the plain `DateTime` tag is used instead. */
  lemma DateTimeFallback(t: ExifTags, today: string, nowTime: string)
    requires !Truthy(t.dateTimeOriginal) && Truthy(t.dateTime)
    ensures MetadataFromTags(t, today, nowTime).date == ParseExifDate(t.dateTime.value, today)
    ensures MetadataFromTags(t, today, nowTime).time == TimeOf(t.dateTime.value, nowTime)
  {
  }

  /** A coordinate whose reference is missing is read as 0, whatever its components. */
  lemma MissingReferenceIsZero(t: ExifTags, today: string, nowTime: string)
    requires !Truthy(t.gpsLatitudeRef) && !Truthy(t.gpsLongitudeRef)
    ensures MetadataFromTags(t, today, nowTime).coordinates == Coordinates(0.0, 0.0)
  {
  }
}
